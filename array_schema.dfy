/**
  The mutable array schema: its items schema and size bounds are fields set one
  at a time, and its validation walks the elements in a loop, appending each
  element's nested errors to the result.
 */
module ArraySchemas {
  import opened Json
  import opened Errors
  import opened Formats
  import opened SimpleTypes
  import opened SimpleTypeSchemas
  import opened Schemas

  class ArraySchema {
    var items: Schema
    var maxItems: Int32
    var minItems: Int32

    /** The schema value this object currently stands for. */
    function Model(): Schema
      reads this
    {
      Array(items, maxItems, minItems)
    }

    /** A new array schema: items of type ANY with no constraint, no size bounds. */
    constructor ()
      ensures items == DefaultItems && maxItems == 0 && minItems == 0
    {
      var any := new SimpleTypeSchema();
      var ok := any.SetType(ANY);
      items := Simple(any.Config());
      maxItems, minItems := 0, 0;
    }

    method SetItems(s: Schema)
      modifies this
      ensures items == s && maxItems == old(maxItems) && minItems == old(minItems)
    {
      items := s;
    }

    method SetMaxItems(n: Int32)
      modifies this
      ensures maxItems == n && items == old(items) && minItems == old(minItems)
    {
      maxItems := n;
    }

    method SetMinItems(n: Int32)
      modifies this
      ensures minItems == n && items == old(items) && maxItems == old(maxItems)
    {
      minItems := n;
    }

    method Validate(document: JsonValue, x: Externals) returns (results: seq<ErrorMessage>)
      ensures results == Schemas.Validate(Model(), document, x)
    {
      if !document.JArray? {
        return SingleError(NotAnArray);
      }
      var elements := document.elements;
      if maxItems != 0 && |elements| > maxItems {
        return SingleError(ArrayTooLong(|elements|, maxItems));
      }
      if minItems != 0 && |elements| < minItems {
        return SingleError(ArrayTooShort(|elements|, minItems));
      }
      ghost var parts := ChildErrors(items, elements, x);
      var index := 0;
      results := [];
      while index < |elements|
        invariant 0 <= index <= |elements|
        invariant results == Collect(parts[..index])
      {
        assert parts[..index + 1][..index] == parts[..index];
        results := results + NestedErrorMessages(index, Schemas.Validate(items, elements[index], x));
        index := index + 1;
      }
      assert parts[..index] == parts;
    }
  }

  /** A new array schema accepts every array: it has no size bounds and its items
      schema accepts every value. */
  method NewSchemaAcceptsEveryArray(elements: seq<JsonValue>, x: Externals) returns (errors: seq<ErrorMessage>)
    ensures errors == []
  {
    var a := new ArraySchema();
    errors := a.Validate(JArray(elements), x);
    DefaultItemsAcceptEverything(0, 0, elements, x);
  }
}
