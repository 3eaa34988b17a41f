/**
  The format keyword: which formats fit which types, and which value check
  each applies. The checks themselves (ISO 8601 date-time, date and time
  parsing, regular-expression compilation and matching, URI parsing) are
  library calls; they are given to the validator as an `Externals` value.
 */
module Formats {
  import opened SimpleTypes

  /** The library calls validation depends on. `matches(pattern, s)` is a compiled
      pattern matched against a string; the others accept a string in that format. */
  datatype Externals = Externals(
    matches: (string, string) -> bool,
    isDateTime: string -> bool,
    isDate: string -> bool,
    isTime: string -> bool,
    isRegex: string -> bool,
    isUri: string -> bool)

  const StringFormats: set<string> := {"date-time", "date", "time", "regex", "uri"}
  const UtcMillisec: string := "utc-millisec"

  /** Whether a format may be declared on a schema of type `t`: the string formats
      need STRING, utc-millisec needs NUMBER or INTEGER, any other name fits every type. */
  predicate FormatFitsType(format: string, t: SimpleType): (ok: bool)
    ensures t == STRING ==> (ok <==> format != UtcMillisec)
    ensures IsNumeric(t) ==> (ok <==> format !in StringFormats)
    ensures t in {NULL, BOOLEAN, ANY} ==> (ok <==> format !in StringFormats && format != UtcMillisec)
  {
    if format in StringFormats then t == STRING
    else if format == UtcMillisec then IsNumeric(t)
    else true
  }

  /** Whether a string value satisfies a format: each string format defers to its
      own library check; formats without a string check (utc-millisec and unknown
      names) always hold. */
  predicate FormatHolds(x: Externals, format: string, s: string): (ok: bool)
    ensures format !in StringFormats ==> ok
    ensures format == "date-time" ==> (ok <==> x.isDateTime(s))
    ensures format == "date" ==> (ok <==> x.isDate(s))
    ensures format == "time" ==> (ok <==> x.isTime(s))
    ensures format == "regex" ==> (ok <==> x.isRegex(s))
    ensures format == "uri" ==> (ok <==> x.isUri(s))
  {
    if format == "date-time" then x.isDateTime(s)
    else if format == "date" then x.isDate(s)
    else if format == "time" then x.isTime(s)
    else if format == "regex" then x.isRegex(s)
    else if format == "uri" then x.isUri(s)
    else true
  }

  /** The library behaviour that the test suite exhibits: every format example
      and pattern example of the leaf schema's tests. It is an assumption about
      the library, used only as a precondition, never proved. */
  predicate AgreesWithTestExamples(x: Externals) {
    && x.isDateTime("2011-05-10T11:11:17Z")
    && !x.isDateTime("2011-05-44T11:11:17Z")
    && !x.isDateTime("2011-May-10T165:11:17z")
    && x.isDate("2011-05-10")
    && !x.isDate("2011-May-10")
    && !x.isDate("2011-05-44")
    && !x.isDate("5-05-22")
    && !x.isDate("95-05-22")
    && !x.isDate("995-05-22")
    && !x.isDate("1995-5-22")
    && !x.isDate("1992-05-2")
    && !x.isDate("1111")
    && !x.isDate("2011-05-10T11:47:16Z")
    && x.isTime("13:15:47")
    && !x.isTime("2011-05-10")
    && !x.isTime("13:75:47")
    && !x.isTime("11:47:16-blah")
    && x.isRegex(".*")
    && !x.isRegex("+")
    && x.isUri("http://www.example.com")
    && !x.isUri(":this-isn't-a-valid-uri")
    && !x.matches("\\d+", "DoesNotMatchTheRegex")
    && x.matches(".+", "Anything should match this regex")
  }
}
