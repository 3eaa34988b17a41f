/**
  The read-only JSON document the validator is handed. Parsing text into a
  document belongs to the JSON library and is not part of this model.
 */
module Json {

  /** A JSON value. Integral and decimal numbers are distinct kinds, as in the
      document library: an integral node is never equal to a decimal node. */
  datatype JsonValue =
    | JNull
    | JBool(b: bool)
    | JInt(i: int)         // an integral number node (int or long)
    | JNumber(x: real)     // a decimal number node (double)
    | JString(s: string)
    | JArray(elements: seq<JsonValue>)
    | JObject(members: seq<(string, JsonValue)>)

  /** The kind tag of a value, as reported by the document library. */
  datatype ValueKind =
    | NullKind | BooleanKind | IntegralKind | DecimalKind | StringKind | ArrayKind | ObjectKind

  function Kind(v: JsonValue): ValueKind {
    match v
    case JNull => NullKind
    case JBool(_) => BooleanKind
    case JInt(_) => IntegralKind
    case JNumber(_) => DecimalKind
    case JString(_) => StringKind
    case JArray(_) => ArrayKind
    case JObject(_) => ObjectKind
  }

  predicate IsNumber(v: JsonValue) {
    v.JInt? || v.JNumber?
  }

  /** The numeric value of a number node, compared exactly. */
  function NumericValue(v: JsonValue): real
    requires IsNumber(v)
  {
    if v.JInt? then v.i as real else v.x
  }
}
