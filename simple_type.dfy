/**
  The six primitive types a leaf schema can declare, which value kinds each
  accepts, and the lower-case name used in type-mismatch messages.
 */
module SimpleTypes {
  import opened Json

  datatype SimpleType = NULL | BOOLEAN | STRING | NUMBER | INTEGER | ANY

  predicate IsNumeric(t: SimpleType) {
    t == NUMBER || t == INTEGER
  }

  /** The acceptance table, stated as the set of kinds each type admits. */
  function AcceptedKinds(t: SimpleType): set<ValueKind> {
    match t
    case NULL => {NullKind}
    case BOOLEAN => {BooleanKind}
    case STRING => {StringKind}
    case NUMBER => {IntegralKind, DecimalKind}
    case INTEGER => {IntegralKind}
    case ANY => {NullKind, BooleanKind, IntegralKind, DecimalKind, StringKind, ArrayKind, ObjectKind}
  }

  /** Whether a value of `v`'s kind is acceptable for `t` (isAcceptableType). */
  predicate IsAcceptable(t: SimpleType, v: JsonValue)
    ensures IsAcceptable(t, v) <==> Kind(v) in AcceptedKinds(t)
  {
    match t
    case NULL => v.JNull?
    case BOOLEAN => v.JBool?
    case STRING => v.JString?
    case NUMBER => IsNumber(v)
    case INTEGER => v.JInt?
    case ANY => true
  }

  /** ANY accepts every value; every other type rejects arrays and objects. */
  lemma AnyAcceptsEverything(t: SimpleType, v: JsonValue)
    ensures t == ANY ==> IsAcceptable(t, v)
    ensures t != ANY && (v.JArray? || v.JObject?) ==> !IsAcceptable(t, v)
  {
  }

  /** NUMBER and INTEGER accept integral values and nothing that is not a number;
      STRING, BOOLEAN and NULL accept only their own kind. */
  lemma NumericTypesAcceptIntegers(t: SimpleType, v: JsonValue)
    ensures IsNumeric(t) && v.JInt? ==> IsAcceptable(t, v)
    ensures IsNumeric(t) && !IsNumber(v) ==> !IsAcceptable(t, v)
    ensures t in {NULL, BOOLEAN, STRING} && IsAcceptable(t, v) ==>
              (v.JNull? <==> t == NULL) && (v.JBool? <==> t == BOOLEAN) && (v.JString? <==> t == STRING)
  {
  }

  predicate IsLowerCase(s: string) {
    forall i :: 0 <= i < |s| ==> 'a' <= s[i] <= 'z'
  }

  /** The type's lower-case name (getDescription). */
  function Description(t: SimpleType): (name: string)
    ensures |name| > 0 && IsLowerCase(name)
  {
    match t
    case NULL => "null"
    case BOOLEAN => "boolean"
    case STRING => "string"
    case NUMBER => "number"
    case INTEGER => "integer"
    case ANY => "any"
  }

  /** Distinct types have distinct names, so a mismatch message identifies its type. */
  lemma DescriptionInjective(t: SimpleType, u: SimpleType)
    requires Description(t) == Description(u)
    ensures t == u
  {
  }
}
