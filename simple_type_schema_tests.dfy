/**
  The leaf schema's behaviour as its test suite exercises it, replayed against
  the model: each method builds schemas through the guarded setters and returns
  what the test observes, and its postcondition states what the test expects.
 */
module SimpleTypeSchemaTests {
  import opened Wrappers
  import opened Json
  import opened SimpleTypes
  import opened Errors
  import opened Formats
  import opened SimpleTypeSchemas

  /** A schema of type `t` with nothing else set. */
  method Typed(t: SimpleType) returns (s: SimpleTypeSchema)
    ensures fresh(s) && s.Valid() && s.Config() == Unconstrained.(simpleType := t)
  {
    s := new SimpleTypeSchema();
    var ok := s.SetType(t);
  }

  method TypeCheck(x: Externals) returns (onMismatch: seq<ErrorMessage>, onMatch: seq<ErrorMessage>)
    ensures onMismatch == SingleError(InvalidType(NUMBER))
    ensures onMatch == []
  {
    var s := Typed(NUMBER);
    onMismatch := s.Validate(JString("abc123"), x);
    onMatch := s.Validate(JInt(12345), x);
  }

  /** A pattern only on STRING, and a STRING with a pattern cannot change type. */
  method PatternNeedsString() returns (onNumber: bool, typeChange: bool)
    ensures !onNumber && !typeChange
  {
    var number := Typed(NUMBER);
    onNumber := number.SetPattern(Some(Regex("\\d+")));
    var text := Typed(STRING);
    var ok := text.SetPattern(Some(Regex(".")));
    typeChange := text.SetType(NUMBER);
  }

  method NullPatternDisablesCheck(x: Externals) returns (errors: seq<ErrorMessage>)
    ensures errors == []
  {
    var s := Typed(STRING);
    var ok := s.SetPattern(None);
    errors := s.Validate(JString("blah"), x);
  }

  method PatternMismatch(x: Externals) returns (errors: seq<ErrorMessage>)
    requires AgreesWithTestExamples(x)
    ensures errors == SingleError(Message.PatternMismatch("DoesNotMatchTheRegex", "\\d+"))
  {
    var s := Typed(STRING);
    var ok := s.SetPattern(Some(Regex("\\d+")));
    errors := s.Validate(JString("DoesNotMatchTheRegex"), x);
  }

  /** The string formats need STRING. */
  method StringFormatsNeedString() returns (dateTime: bool, date: bool, time: bool, regex: bool, uri: bool)
    ensures !dateTime && !date && !time && !regex && !uri
  {
    var number := Typed(NUMBER);
    dateTime := number.SetFormat("date-time");
    date := number.SetFormat("date");
    time := number.SetFormat("time");
    regex := number.SetFormat("regex");
    uri := number.SetFormat("uri");
  }

  /** utc-millisec needs NUMBER or INTEGER, and then holds the type there. */
  method UtcMillisecNeedsNumber() returns (onBoolean: bool, onString: bool, onInteger: bool, stringAfter: bool)
    ensures !onBoolean && !onString && onInteger && !stringAfter
  {
    var boolean := Typed(BOOLEAN);
    onBoolean := boolean.SetFormat(UtcMillisec);
    var text := Typed(STRING);
    onString := text.SetFormat(UtcMillisec);
    var integer := Typed(INTEGER);
    onInteger := integer.SetFormat(UtcMillisec);
    var number := Typed(NUMBER);
    var ok := number.SetFormat(UtcMillisec);
    stringAfter := number.SetType(STRING);
  }

  /** An unknown format on a schema whose type was never set accepts any string. */
  method UnknownFormatAcceptsAnything(x: Externals, text: string) returns (errors: seq<ErrorMessage>)
    ensures errors == []
  {
    var s := new SimpleTypeSchema();
    var ok := s.SetFormat("custom-format");
    errors := s.Validate(JString(text), x);
  }

  /** The format examples of the test suite, given the library behaves as the tests show. */
  method FormatExamples(x: Externals) returns (valid: seq<ErrorMessage>, invalid: seq<ErrorMessage>)
    requires AgreesWithTestExamples(x)
    ensures valid == []
    ensures invalid == SingleError(InvalidFormat("2011-05-44", "date"))
  {
    var s := Typed(STRING);
    var ok := s.SetFormat("date");
    valid := s.Validate(JString("2011-05-10"), x);
    invalid := s.Validate(JString("2011-05-44"), x);
  }

  method LengthNeedsString() returns (maxOnInteger: bool, minOnInteger: bool)
    ensures !maxOnInteger && !minOnInteger
  {
    var s := Typed(INTEGER);
    maxOnInteger := s.SetMaxLength(10);
    minOnInteger := s.SetMinLength(10);
  }

  /** maxLength and minLength are inclusive bounds. */
  method LengthBoundsAreInclusive(x: Externals)
    returns (longer: seq<ErrorMessage>, atMax: seq<ErrorMessage>, shorter: seq<ErrorMessage>, atMin: seq<ErrorMessage>)
    ensures longer == SingleError(TooLong("1234567890XXXX", 10)) && atMax == []
    ensures shorter == SingleError(TooShort("1", 2)) && atMin == []
  {
    var s := Typed(STRING);
    var ok := s.SetMaxLength(10);
    longer := s.Validate(JString("1234567890XXXX"), x);
    atMax := s.Validate(JString("1234567890"), x);
    var t := Typed(STRING);
    ok := t.SetMinLength(2);
    shorter := t.Validate(JString("1"), x);
    atMin := t.Validate(JString("12"), x);
  }

  method BoundsNeedNumericType()
    returns (number: bool, integer: bool, text: bool, boolean: bool,
             exclusiveMinOnString: bool, exclusiveMaxOnString: bool)
    ensures number && integer && !text && !boolean
    ensures !exclusiveMinOnString && !exclusiveMaxOnString
  {
    var n := Typed(NUMBER);
    var okMin := n.SetMinimum(10.0);
    var okMax := n.SetMaximum(10.0);
    number := okMin && okMax;
    var i := Typed(INTEGER);
    okMin := i.SetMinimum(10.0);
    okMax := i.SetMaximum(10.0);
    integer := okMin && okMax;
    var s := Typed(STRING);
    okMin := s.SetMinimum(10.0);
    okMax := s.SetMaximum(10.0);
    text := okMin || okMax;
    var b := Typed(BOOLEAN);
    okMin := b.SetMinimum(10.0);
    okMax := b.SetMaximum(10.0);
    boolean := okMin || okMax;
    exclusiveMinOnString := s.SetExclusiveMinimum(true);
    exclusiveMaxOnString := s.SetExclusiveMaximum(true);
  }

  /** Inclusive bounds admit the bound itself; exclusive ones reject it and say so. */
  method BoundExamples(x: Externals)
    returns (atMaximum: seq<ErrorMessage>, belowMinimum: seq<ErrorMessage>,
             atExclusiveMinimum: seq<ErrorMessage>, aboveExclusiveMinimum: seq<ErrorMessage>,
             atExclusiveMaximum: seq<ErrorMessage>, belowExclusiveMaximum: seq<ErrorMessage>)
    ensures atMaximum == []
    ensures belowMinimum == SingleError(BelowMinimum(1.5, 2.0, false))
    ensures atExclusiveMinimum == SingleError(BelowMinimum(11.0, 11.0, true))
    ensures aboveExclusiveMinimum == []
    ensures atExclusiveMaximum == SingleError(AboveMaximum(11.0, 11.0, true))
    ensures belowExclusiveMaximum == []
  {
    var n := Typed(NUMBER);
    var ok := n.SetMaximum(20.0);
    atMaximum := n.Validate(JNumber(20.0), x);
    var m := Typed(NUMBER);
    ok := m.SetMinimum(2.0);
    belowMinimum := m.Validate(JNumber(1.5), x);
    var i := Typed(INTEGER);
    ok := i.SetMinimum(11.0);
    ok := i.SetExclusiveMinimum(true);
    atExclusiveMinimum := i.Validate(JInt(11), x);
    aboveExclusiveMinimum := i.Validate(JInt(14), x);
    var j := Typed(INTEGER);
    ok := j.SetMaximum(11.0);
    ok := j.SetExclusiveMaximum(true);
    atExclusiveMaximum := j.Validate(JInt(11), x);
    belowExclusiveMaximum := j.Validate(JInt(7), x);
  }

  /** Enumeration values must all be of the declared type. */
  method EnumerationMustMatchType() returns (mixed: bool, text: bool, number: bool, integer: bool, boolean: bool)
    ensures !mixed && text && number && integer && boolean
  {
    var s := Typed(STRING);
    var values := [JString("A"), JInt(4)];
    assert !IsAcceptable(STRING, values[1]);
    mixed := s.SetEnumeration(values);
    text := s.SetEnumeration([JString("A")]);
    var n := Typed(NUMBER);
    number := n.SetEnumeration([JNumber(10.22)]);
    var i := Typed(INTEGER);
    integer := i.SetEnumeration([JInt(12)]);
    var b := Typed(BOOLEAN);
    boolean := b.SetEnumeration([JBool(true)]);
  }

  /** NULL and ANY schemas take no enumeration. */
  method EnumerationNotForNullOrAny() returns (onNull: bool, onAny: bool)
    ensures !onNull && !onAny
  {
    var nul := Typed(NULL);
    onNull := nul.SetEnumeration([JNull]);
    var any := Typed(ANY);
    onAny := any.SetEnumeration([JString("A")]);
  }

  method EnumerationExamples(x: Externals) returns (member: seq<ErrorMessage>, other: seq<ErrorMessage>)
    ensures member == []
    ensures other == SingleError(NotInEnumeration(JNumber(10.5), [JNumber(10.0), JNumber(10.05)]))
  {
    var s := Typed(NUMBER);
    var ok := s.SetEnumeration([JNumber(10.0), JNumber(10.05)]);
    member := s.Validate(JNumber(10.05), x);
    other := s.Validate(JNumber(10.5), x);
  }

  method Descriptions() returns (text: string, nul: string)
    ensures text == "string" && nul == "null"
  {
    var s := Typed(STRING);
    text := s.GetDescription();
    var n := Typed(NULL);
    nul := n.GetDescription();
  }
}
