/**
  Validation errors: a location (root is the empty string) and a message, and
  the rule that nests a child's error under a parent's path segment.
  Messages are kept as structured data carrying the offending value and the
  bound or token the message text would print.
 */
module Errors {
  import opened Json
  import opened SimpleTypes

  datatype Message =
    | InvalidType(expected: SimpleType)
    | NotInEnumeration(offending: JsonValue, allowed: seq<JsonValue>)
    | PatternMismatch(text: string, pattern: string)
    | TooLong(text: string, maxLength: nat)
    | TooShort(text: string, minLength: nat)
      // `exclusive` is whether the message names exclusiveMinimum / exclusiveMaximum
    | BelowMinimum(number: real, minimum: real, exclusive: bool)
    | AboveMaximum(number: real, maximum: real, exclusive: bool)
    | InvalidFormat(text: string, format: string)
    | NotAnArray
    | ArrayTooLong(size: nat, maxItems: int)
    | ArrayTooShort(size: nat, minItems: int)

  datatype ErrorMessage = ErrorMessage(location: string, message: Message)

  /** The list holding one error at the root location. */
  function SingleError(m: Message): (r: seq<ErrorMessage>)
    ensures |r| == 1 && r[0].location == "" && r[0].message == m
  {
    [ErrorMessage("", m)]
  }

  /** A child's error seen from its parent: the parent's segment goes in front of
      the child's location, the message is unchanged. */
  function Nested(prefix: string, e: ErrorMessage): ErrorMessage {
    ErrorMessage(prefix + e.location, e.message)
  }

  /** Every error of a child nested under the same segment, order kept. */
  function NestAll(prefix: string, errors: seq<ErrorMessage>): (r: seq<ErrorMessage>)
    ensures |r| == |errors|
    ensures forall i :: 0 <= i < |r| ==>
              r[i].message == errors[i].message && r[i].location == prefix + errors[i].location
  {
    if errors == [] then [] else [Nested(prefix, errors[0])] + NestAll(prefix, errors[1..])
  }

  /** Nesting distributes over concatenation. */
  lemma NestAllAppend(prefix: string, a: seq<ErrorMessage>, b: seq<ErrorMessage>)
    ensures NestAll(prefix, a + b) == NestAll(prefix, a) + NestAll(prefix, b)
  {
    var l, r := NestAll(prefix, a + b), NestAll(prefix, a) + NestAll(prefix, b);
    assert |l| == |r|;
    forall i | 0 <= i < |l| ensures l[i] == r[i] {
      if i >= |a| {
        assert (a + b)[i] == b[i - |a|];
      }
    }
  }

  /** Nesting twice is nesting once under the joined segments: a location is
      built root first, one segment per level. */
  lemma {:induction false} NestAllCompose(outer: string, inner: string, errors: seq<ErrorMessage>)
    ensures NestAll(outer, NestAll(inner, errors)) == NestAll(outer + inner, errors)
  {
    if errors != [] {
      NestAllCompose(outer, inner, errors[1..]);
      assert outer + (inner + errors[0].location) == (outer + inner) + errors[0].location;
    }
  }

  /** A nested error is found in the nested list exactly when it was in the child's. */
  lemma NestedIn(prefix: string, e: ErrorMessage, errors: seq<ErrorMessage>)
    ensures e in errors <==> Nested(prefix, e) in NestAll(prefix, errors)
  {
    var nested := NestAll(prefix, errors);
    if e in errors {
      var i :| 0 <= i < |errors| && errors[i] == e;
      assert nested[i] == Nested(prefix, e);
    }
    if Nested(prefix, e) in nested {
      var i :| 0 <= i < |nested| && nested[i] == Nested(prefix, e);
      assert e.location == (prefix + e.location)[|prefix|..] == (prefix + errors[i].location)[|prefix|..];
      assert errors[i] == e;
    }
  }

  // ---- decimal rendering of an array index ----

  predicate IsDigit(c: char) {
    '0' <= c <= '9'
  }

  predicate AllDigits(s: string) {
    forall i :: 0 <= i < |s| ==> IsDigit(s[i])
  }

  function DigitChar(d: nat): (c: char)
    requires d < 10
    ensures IsDigit(c) && (c as int) - ('0' as int) == d
  {
    ('0' as int + d) as char
  }

  /** The decimal text of a natural number, without leading zeros. */
  function Decimal(n: nat): (s: string)
    ensures |s| >= 1 && AllDigits(s)
    ensures |s| > 1 ==> s[0] != '0'
  {
    if n < 10 then [DigitChar(n)] else Decimal(n / 10) + [DigitChar(n % 10)]
  }

  /** Reads decimal digits back into the number they denote. */
  function ParseDecimal(s: string): nat
    requires AllDigits(s)
  {
    if s == [] then 0
    else ParseDecimal(s[..|s| - 1]) * 10 + ((s[|s| - 1] as int) - ('0' as int))
  }

  lemma {:induction false} ParseDecimalOfDecimal(n: nat)
    ensures ParseDecimal(Decimal(n)) == n
  {
    var s := Decimal(n);
    if n >= 10 {
      ParseDecimalOfDecimal(n / 10);
      assert s[..|s| - 1] == Decimal(n / 10);
    }
  }

  /** Different numbers have different decimal texts. */
  lemma DecimalInjective(m: nat, n: nat)
    requires Decimal(m) == Decimal(n)
    ensures m == n
  {
    ParseDecimalOfDecimal(m);
    ParseDecimalOfDecimal(n);
  }
}
