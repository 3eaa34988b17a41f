/**
  The schema tree and its validation. A schema is a leaf (a simple-type schema)
  or an array schema whose items schema is applied to every element. An array
  schema reports a wrong kind or a size outside its bounds as one root error;
  otherwise it collects the errors of every element, in element order, each
  nested under the element's index segment `[i]`.
 */
module Schemas {
  import opened Json
  import opened Errors
  import opened Formats
  import opened SimpleTypes
  import opened SimpleTypeSchemas

  /** A Java `int`. */
  type Int32 = x: int | -0x8000_0000 <= x < 0x8000_0000

  datatype Schema =
    | Simple(config: SimpleConfig)
    | Array(items: Schema, maxItems: Int32, minItems: Int32)  // 0 means no bound

  /** The items schema a new array schema starts with: type ANY and nothing else. */
  const DefaultItems: Schema := Simple(Unconstrained)

  /** The path segment of the element at `index`. */
  function IndexSegment(index: nat): (segment: string)
    ensures |segment| >= 3 && segment[0] == '[' && segment[|segment| - 1] == ']'
  {
    "[" + Decimal(index) + "]"
  }

  /** The errors of the element at `index`, seen from the array. */
  function NestedErrorMessages(index: nat, errors: seq<ErrorMessage>): (r: seq<ErrorMessage>)
    ensures |r| == |errors|
    ensures forall i :: 0 <= i < |r| ==>
              r[i].message == errors[i].message && r[i].location == IndexSegment(index) + errors[i].location
  {
    NestAll(IndexSegment(index), errors)
  }

  predicate ExceedsMaxItems(maxItems: Int32, size: nat) {
    maxItems != 0 && size > maxItems
  }

  predicate BelowMinItems(minItems: Int32, size: nat) {
    minItems != 0 && size < minItems
  }

  predicate SizeWithinBounds(s: Schema, size: nat)
    requires s.Array?
  {
    !ExceedsMaxItems(s.maxItems, size) && !BelowMinItems(s.minItems, size)
  }

  /** What a schema reports about a value. A leaf reports at most one error, at the
      root; an array reports one root error when the value is not an array or its
      size is out of bounds, and otherwise as many errors as its elements do. */
  function Validate(s: Schema, v: JsonValue, x: Externals): (r: seq<ErrorMessage>)
    decreases s, 0
    ensures s.Simple? ==> |r| <= 1 && forall e <- r :: e.location == ""
    ensures s.Array? && !(v.JArray? && SizeWithinBounds(s, |v.elements|)) ==>
              |r| == 1 && r[0].location == ""
    ensures s.Array? && v.JArray? && SizeWithinBounds(s, |v.elements|) ==>
              |r| == TotalSize(ChildErrors(s.items, v.elements, x))
  {
    match s
    case Simple(c) => ValidateSimple(c, v, x)
    case Array(items, maxItems, minItems) =>
      if !v.JArray? then
        SingleError(NotAnArray)
      else if ExceedsMaxItems(maxItems, |v.elements|) then
        SingleError(ArrayTooLong(|v.elements|, maxItems))
      else if BelowMinItems(minItems, |v.elements|) then
        SingleError(ArrayTooShort(|v.elements|, minItems))
      else
        Collect(ChildErrors(items, v.elements, x))
  }

  /** What the items schema says of each element, element by element. */
  function ChildErrors(items: Schema, elements: seq<JsonValue>, x: Externals): (r: seq<seq<ErrorMessage>>)
    decreases items, 1
    ensures |r| == |elements|
    ensures forall i :: 0 <= i < |elements| ==> r[i] == Validate(items, elements[i], x)
  {
    seq(|elements|, i requires 0 <= i < |elements| => Validate(items, elements[i], x))
  }

  /** The array's result from its elements' results: each element's errors nested
      under its index, appended in element order. There are as many as the
      elements have together. */
  function Collect(parts: seq<seq<ErrorMessage>>): (r: seq<ErrorMessage>)
    ensures |r| == TotalSize(parts)
  {
    if parts == [] then []
    else
      var last := |parts| - 1;
      TotalSizeAppend(parts[..last], parts[last]);
      assert parts[..last] + [parts[last]] == parts;
      Collect(parts[..last]) + NestedErrorMessages(last, parts[last])
  }

  // ---- the root-level outcomes ----

  /** The four outcomes of an array schema, checked in the order kind, maxItems, minItems. */
  lemma ArrayOutcomes(s: Schema, v: JsonValue, x: Externals)
    requires s.Array?
    ensures !v.JArray? ==> Validate(s, v, x) == SingleError(NotAnArray)
    ensures v.JArray? && ExceedsMaxItems(s.maxItems, |v.elements|) ==>
              Validate(s, v, x) == SingleError(ArrayTooLong(|v.elements|, s.maxItems))
    ensures v.JArray? && !ExceedsMaxItems(s.maxItems, |v.elements|) && BelowMinItems(s.minItems, |v.elements|) ==>
              Validate(s, v, x) == SingleError(ArrayTooShort(|v.elements|, s.minItems))
    ensures v.JArray? && SizeWithinBounds(s, |v.elements|) ==>
              Validate(s, v, x) == Collect(ChildErrors(s.items, v.elements, x))
  {
  }

  /** A bound of 0 is no bound at all. */
  lemma ZeroBoundsAreUnbounded(items: Schema, elements: seq<JsonValue>, x: Externals)
    ensures Validate(Array(items, 0, 0), JArray(elements), x) == Collect(ChildErrors(items, elements, x))
  {
  }

  // ---- counting ----

  /** The number of errors of all the parts together. */
  function TotalSize(parts: seq<seq<ErrorMessage>>): nat {
    if parts == [] then 0 else |parts[0]| + TotalSize(parts[1..])
  }

  lemma {:induction false} TotalSizeAppend(parts: seq<seq<ErrorMessage>>, p: seq<ErrorMessage>)
    ensures TotalSize(parts + [p]) == TotalSize(parts) + |p|
  {
    if parts != [] {
      assert (parts + [p])[1..] == parts[1..] + [p];
      TotalSizeAppend(parts[1..], p);
    }
  }

  lemma {:induction false} TotalSizeZero(parts: seq<seq<ErrorMessage>>)
    ensures TotalSize(parts) == 0 <==> forall i :: 0 <= i < |parts| ==> parts[i] == []
  {
    if parts != [] {
      TotalSizeZero(parts[1..]);
      assert forall i :: 0 < i < |parts| ==> parts[1..][i - 1] == parts[i];
    }
  }

  /** An array's elements are all valid exactly when the array gets no item error. */
  lemma CollectEmpty(parts: seq<seq<ErrorMessage>>)
    ensures Collect(parts) == [] <==> forall i :: 0 <= i < |parts| ==> parts[i] == []
  {
    TotalSizeZero(parts);
  }

  // ---- order and location ----

  /** The errors of the first k elements are a prefix of the errors of all. */
  lemma {:induction false} CollectPrefix(parts: seq<seq<ErrorMessage>>, k: nat)
    requires k <= |parts|
    ensures Collect(parts[..k]) <= Collect(parts)
    decreases |parts|
  {
    if k < |parts| {
      var last := |parts| - 1;
      assert parts[..last][..k] == parts[..k];
      CollectPrefix(parts[..last], k);
    } else {
      assert parts[..k] == parts;
    }
  }

  /** The errors of element i sit together, right after those of the elements before
      it, each one the element's own error with `[i]` in front of its location. */
  lemma PartInPlace(parts: seq<seq<ErrorMessage>>, i: nat)
    requires i < |parts|
    ensures var start, all := |Collect(parts[..i])|, Collect(parts);
            && start + |parts[i]| <= |all|
            && all[start..start + |parts[i]|] == NestedErrorMessages(i, parts[i])
  {
    var prefix := parts[..i + 1];
    assert prefix[..i] == parts[..i];
    assert prefix[i] == parts[i];
    CollectPrefix(parts, i + 1);
  }

  /** An error is reported exactly when it is some element's own error nested under
      that element's index: nothing is dropped and nothing is invented. */
  lemma {:induction false} CollectMembership(parts: seq<seq<ErrorMessage>>, r: ErrorMessage)
    ensures r in Collect(parts) <==>
              exists i, e :: 0 <= i < |parts| && e in parts[i] && r == Nested(IndexSegment(i), e)
  {
    if parts != [] {
      var last := |parts| - 1;
      var init := parts[..last];
      CollectMembership(init, r);
      if r in Collect(parts) {
        if r in Collect(init) {
          var i, e :| 0 <= i < last && e in init[i] && r == Nested(IndexSegment(i), e);
          assert init[i] == parts[i];
        } else {
          var own := NestedErrorMessages(last, parts[last]);
          assert r in own;
          var k :| 0 <= k < |own| && own[k] == r;
          assert r == Nested(IndexSegment(last), parts[last][k]);
        }
      } else {
        forall i, e | 0 <= i < |parts| && e in parts[i]
          ensures r != Nested(IndexSegment(i), e)
        {
          if i == last {
            NestedIn(IndexSegment(last), e, parts[last]);
          } else {
            assert init[i] == parts[i];
          }
        }
      }
    }
  }

  /** Different elements contribute under different segments. */
  lemma IndexSegmentInjective(i: nat, j: nat)
    requires IndexSegment(i) == IndexSegment(j)
    ensures i == j
  {
    var si, sj := IndexSegment(i), IndexSegment(j);
    assert si[1..|si| - 1] == Decimal(i);
    assert sj[1..|sj| - 1] == Decimal(j);
    DecimalInjective(i, j);
  }

  // ---- defaults and nesting ----

  /** The default items schema accepts every value, so an array schema that keeps it
      accepts every array within its size bounds. */
  lemma DefaultItemsAcceptEverything(maxItems: Int32, minItems: Int32, elements: seq<JsonValue>, x: Externals)
    requires SizeWithinBounds(Array(DefaultItems, maxItems, minItems), |elements|)
    ensures Validate(Array(DefaultItems, maxItems, minItems), JArray(elements), x) == []
  {
    var parts := ChildErrors(DefaultItems, elements, x);
    forall i | 0 <= i < |elements| ensures parts[i] == [] {
      UnconstrainedAcceptsAcceptable(Unconstrained, elements[i], x);
    }
    CollectEmpty(parts);
  }

  /** An empty array within its size bounds has no error, whatever its items schema. */
  lemma EmptyArrayWithinBoundsIsValid(s: Schema, x: Externals)
    requires s.Array? && SizeWithinBounds(s, 0)
    ensures Validate(s, JArray([]), x) == []
  {
  }

  /** An error an element gets is reported by an array within its size bounds,
      nested under that element's index. */
  lemma ElementErrorReported(s: Schema, elements: seq<JsonValue>, i: nat, e: ErrorMessage, x: Externals)
    requires s.Array? && SizeWithinBounds(s, |elements|)
    requires i < |elements| && e in Validate(s.items, elements[i], x)
    ensures Nested(IndexSegment(i), e) in Validate(s, JArray(elements), x)
  {
    var parts := ChildErrors(s.items, elements, x);
    assert Validate(s, JArray(elements), x) == Collect(parts);
    CollectMembership(parts, Nested(IndexSegment(i), e));
  }

  /** In an array of arrays, an error of element j of element i is reported at
      `[i][j]` followed by its own location. */
  lemma NestedArrayLocation(inner: Schema, elements: seq<JsonValue>, i: nat, j: nat, e: ErrorMessage, x: Externals)
    requires inner.Array?
    requires i < |elements| && elements[i].JArray? && SizeWithinBounds(inner, |elements[i].elements|)
    requires j < |elements[i].elements| && e in Validate(inner.items, elements[i].elements[j], x)
    ensures ErrorMessage(IndexSegment(i) + IndexSegment(j) + e.location, e.message)
              in Validate(Array(inner, 0, 0), JArray(elements), x)
  {
    var row := elements[i].elements;
    assert elements[i] == JArray(row);
    var mid := Nested(IndexSegment(j), e);
    ElementErrorReported(inner, row, j, e, x);
    ElementErrorReported(Array(inner, 0, 0), elements, i, mid, x);
    NestedTwice(IndexSegment(i), IndexSegment(j), e);
  }

  lemma NestedTwice(outer: string, inner: string, e: ErrorMessage)
    ensures Nested(outer, Nested(inner, e)) == ErrorMessage(outer + inner + e.location, e.message)
  {
    assert outer + (inner + e.location) == outer + inner + e.location;
  }

  /** The result of three elements, element by element. */
  lemma CollectThree(a: seq<ErrorMessage>, b: seq<ErrorMessage>, c: seq<ErrorMessage>)
    ensures Collect([a, b, c]) == NestedErrorMessages(0, a) + NestedErrorMessages(1, b) + NestedErrorMessages(2, c)
  {
    var p := [a, b, c];
    assert p[..2] == [a, b] && p[2] == c;
    assert [a, b][..1] == [a] && [a, b][1] == b;
    assert [a][..0] == [] && [a][0] == a;
    assert Collect([a]) == Collect([]) + NestedErrorMessages(0, a);
    assert Collect([a, b]) == Collect([a]) + NestedErrorMessages(1, b);
    assert Collect(p) == Collect([a, b]) + NestedErrorMessages(2, c);
  }

  /** A single root error of element i is reported at `[i]`. */
  lemma NestedSingleError(i: nat, m: Message)
    ensures NestedErrorMessages(i, SingleError(m)) == [ErrorMessage(IndexSegment(i), m)]
  {
    assert IndexSegment(i) + "" == IndexSegment(i);
  }

  /** Two invalid elements each contribute their own error, at their own index. */
  lemma InvalidElementsReportedAtTheirIndex(x: Externals)
    ensures var numbers := Array(Simple(Unconstrained.(simpleType := NUMBER)), 0, 0);
            Validate(numbers, JArray([JString("a"), JInt(1), JString("b")]), x)
              == [ErrorMessage("[0]", InvalidType(NUMBER)), ErrorMessage("[2]", InvalidType(NUMBER))]
  {
    var c := Unconstrained.(simpleType := NUMBER);
    var elements := [JString("a"), JInt(1), JString("b")];
    var parts := ChildErrors(Simple(c), elements, x);
    var m := InvalidType(NUMBER);
    TypeMismatchIsSingleError(c, JString("a"), x);
    TypeMismatchIsSingleError(c, JString("b"), x);
    UnconstrainedAcceptsAcceptable(c, JInt(1), x);
    assert parts == [SingleError(m), [], SingleError(m)];
    CollectThree(SingleError(m), [], SingleError(m));
    NestedSingleError(0, m);
    NestedSingleError(2, m);
    assert Decimal(0) == "0" && Decimal(2) == "2";
    assert IndexSegment(0) == "[0]" && IndexSegment(2) == "[2]";
  }
}
