/**
 * The JSON values of src/pnp/JSON.ts (`Value` and its subclasses) and the
 * property lookups of `ObjectValue`: the property map, in which a later
 * property of the same name replaces an earlier one, the property names in
 * order of first appearance, and the walk along a stack of property names.
 */
module JsonValues {
  import opened Wrappers
  import opened Language

  /** A parsed JSON value; `PropertyValue` is a property of an object. */
  datatype Value =
    | ObjectValue(span: Span, properties: seq<Value>)
    | PropertyValue(span: Span, name: Value, value: Value)
    | ArrayValue(span: Span, elements: seq<Value>)
    | StringValue(span: Span, str: string)
    | NumberValue(span: Span, text: string)
    | BooleanValue(span: Span, b: bool)
    | NullValue(span: Span)

  /** `inner` lies inside `outer`. */
  predicate Within(inner: Span, outer: Span)
  {
    outer.startIndex <= inner.startIndex && inner.AfterEndIndex() <= outer.AfterEndIndex()
  }

  /** Widening a span keeps what lay inside it inside. */
  lemma WithinUnion(inner: Span, outer: Span, other: Span)
    requires Within(inner, outer)
    ensures Within(inner, outer.Union(Some(other)))
  {
  }

  /** An object's members are properties, each named by a string. */
  predicate IsPropertyList(props: seq<Value>)
  {
    forall p <- props :: p.PropertyValue? && p.name.StringValue?
  }

  /**
   * The shape the parser produces: object members are properties named by
   * strings, and every part of a value lies inside the value's span.
   */
  predicate Nested(v: Value)
  {
    v.span.length >= 0 &&
    match v
    case ObjectValue(span, props) =>
      IsPropertyList(props) && forall p <- props :: Within(p.span, span) && Nested(p)
    case PropertyValue(span, name, value) =>
      name.StringValue? && Within(name.span, span) && Within(value.span, span) && Nested(name) && Nested(value)
    case ArrayValue(span, elements) =>
      forall e <- elements :: Within(e.span, span) && Nested(e)
    case _ => true
  }

  /** The name of a property (`property.name.toString()`). */
  function NameOf(p: Value): string
    requires p.PropertyValue? && p.name.StringValue?
  {
    p.name.str
  }

  /** The property map, built left to right so that a later duplicate name wins. */
  function MapOf(props: seq<Value>): map<string, Value>
    requires IsPropertyList(props)
  {
    if |props| == 0 then map[]
    else
      var p := props[|props| - 1];
      MapOf(props[..|props| - 1])[NameOf(p) := p.value]
  }

  /**
   * A name is in the property map exactly when some property has it, and it
   * maps to the value of the last property with that name.
   */
  lemma {:induction false} MapOfLastWins(props: seq<Value>, name: string)
    requires IsPropertyList(props)
    ensures name in MapOf(props) <==> exists i :: 0 <= i < |props| && NameOf(props[i]) == name
    ensures name in MapOf(props) ==>
      exists i :: 0 <= i < |props| && NameOf(props[i]) == name && MapOf(props)[name] == props[i].value &&
        forall j :: i < j < |props| ==> NameOf(props[j]) != name
    decreases |props|
  {
    if |props| > 0 {
      var n := |props| - 1;
      var front := props[..n];
      MapOfLastWins(front, name);
      if NameOf(props[n]) != name {
        if name in MapOf(front) {
          var i :| 0 <= i < |front| && NameOf(front[i]) == name && MapOf(front)[name] == front[i].value &&
            forall j :: i < j < |front| ==> NameOf(front[j]) != name;
          assert props[i] == front[i];
          forall j | i < j < |props| ensures NameOf(props[j]) != name {
            if j < n {
              assert props[j] == front[j];
            }
          }
        } else {
          forall i | 0 <= i < |props| ensures NameOf(props[i]) != name {
            if i < n {
              assert props[i] == front[i];
            }
          }
        }
      }
    }
  }

  /** The getter `propertyMap`: the map from each property name to its value. */
  method PropertyMap(props: seq<Value>) returns (m: map<string, Value>)
    requires IsPropertyList(props)
    ensures m == MapOf(props)
  {
    m := map[];
    for i := 0 to |props|
      invariant m == MapOf(props[..i])
    {
      assert props[..i + 1][..i] == props[..i];
      m := m[NameOf(props[i]) := props[i].value];
    }
    assert props[..|props|] == props;
  }

  /**
   * `getPropertyValue`: the value of the last property named `name`, if any
   * property has that name.
   */
  function GetPropertyValue(obj: Value, name: string): (r: Option<Value>)
    requires obj.ObjectValue? && IsPropertyList(obj.properties)
  {
    var m := MapOf(obj.properties);
    if name in m then Some(m[name]) else None
  }

  /** `hasProperty`: some property of the object is named `name`. */
  function HasProperty(obj: Value, name: string): (r: bool)
    requires obj.ObjectValue? && IsPropertyList(obj.properties)
    ensures r <==> exists i :: 0 <= i < |obj.properties| && NameOf(obj.properties[i]) == name
  {
    MapOfLastWins(obj.properties, name);
    GetPropertyValue(obj, name).Some?
  }

  /** The property value lookup answers with the value of the last property of that name. */
  lemma GetPropertyValueLast(obj: Value, name: string)
    requires obj.ObjectValue? && IsPropertyList(obj.properties)
    ensures GetPropertyValue(obj, name).Some? <==> HasProperty(obj, name)
    ensures GetPropertyValue(obj, name).Some? ==>
      exists i :: 0 <= i < |obj.properties| && NameOf(obj.properties[i]) == name &&
        GetPropertyValue(obj, name).value == obj.properties[i].value &&
        forall j :: i < j < |obj.properties| ==> NameOf(obj.properties[j]) != name
  {
    MapOfLastWins(obj.properties, name);
  }

  /** The keys of the property map in insertion order: each name where it first appears. */
  function NamesOf(props: seq<Value>): (r: seq<string>)
    requires IsPropertyList(props)
    ensures forall i, j :: 0 <= i < j < |r| ==> r[i] != r[j]
  {
    if |props| == 0 then []
    else
      var front := NamesOf(props[..|props| - 1]);
      var name := NameOf(props[|props| - 1]);
      if name in front then front else front + [name]
  }

  /** The property names are exactly the names of the properties. */
  lemma {:induction false} NamesOfNames(props: seq<Value>, name: string)
    requires IsPropertyList(props)
    ensures name in NamesOf(props) <==> exists i :: 0 <= i < |props| && NameOf(props[i]) == name
    decreases |props|
  {
    if |props| > 0 {
      var n := |props| - 1;
      NamesOfNames(props[..n], name);
      if exists i :: 0 <= i < n && NameOf(props[..n][i]) == name {
        var i :| 0 <= i < n && NameOf(props[..n][i]) == name;
        assert props[i] == props[..n][i];
      }
      forall i | 0 <= i < n && NameOf(props[i]) == name ensures name in NamesOf(props[..n]) {
        assert props[..n][i] == props[i];
      }
    }
  }

  /** `propertyNames`: the names of the object's properties, once each, in order of first appearance. */
  function PropertyNames(obj: Value): (r: seq<string>)
    requires obj.ObjectValue? && IsPropertyList(obj.properties)
    ensures forall i, j :: 0 <= i < j < |r| ==> r[i] != r[j]
    ensures |r| <= |obj.properties|
  {
    NamesAtMost(obj.properties);
    NamesOf(obj.properties)
  }

  /** There are no more distinct names than properties. */
  lemma {:induction false} NamesAtMost(props: seq<Value>)
    requires IsPropertyList(props)
    ensures |NamesOf(props)| <= |props|
    decreases |props|
  {
    if |props| > 0 {
      NamesAtMost(props[..|props| - 1]);
    }
  }

  /** Every property name is a key of the property map and the other way round. */
  lemma PropertyNamesAreKeys(obj: Value, name: string)
    requires obj.ObjectValue? && IsPropertyList(obj.properties)
    ensures name in PropertyNames(obj) <==> HasProperty(obj, name)
  {
    NamesOfNames(obj.properties, name);
  }

  /**
   * What `getPropertyValueFromStack` gives: the names are taken from the end
   * of the stack; a missing property ends the walk with nothing; a value
   * that is not an object when a name is still left fails, since the source
   * then calls a method on null.
   */
  function PathValue(v: Value, stack: seq<string>): Result<Option<Value>>
    requires Nested(v)
    decreases |stack|
  {
    if |stack| == 0 then Ok(Some(v))
    else if !v.ObjectValue? then Err("TypeError: Cannot read property 'getPropertyValue' of null")
    else
      match GetPropertyValue(v, stack[|stack| - 1])
      case None => Ok(None)
      case Some(w) =>
        NestedPropertyValue(v, stack[|stack| - 1]);
        PathValue(w, stack[..|stack| - 1])
  }

  /**
   * The names `getPropertyValueFromStack` leaves on the caller's stack: each
   * name looked up is popped, and a value that is not an object fails before
   * the next name is popped.
   */
  function PathRest(v: Value, stack: seq<string>): (r: seq<string>)
    requires Nested(v)
    ensures |r| <= |stack| && r == stack[..|r|]
    ensures PathValue(v, stack).Ok? && PathValue(v, stack).value.Some? ==> r == []
    ensures PathValue(v, stack).Err? ==> r != []
    decreases |stack|
  {
    if |stack| == 0 || !v.ObjectValue? then stack
    else
      match GetPropertyValue(v, stack[|stack| - 1])
      case None => stack[..|stack| - 1]
      case Some(w) =>
        NestedPropertyValue(v, stack[|stack| - 1]);
        var r := PathRest(w, stack[..|stack| - 1]);
        assert stack[..|stack| - 1][..|r|] == stack[..|r|];
        r
  }

  /** The value a lookup finds is itself a nested value. */
  lemma NestedPropertyValue(obj: Value, name: string)
    requires obj.ObjectValue? && Nested(obj)
    ensures GetPropertyValue(obj, name).Some? ==> Nested(GetPropertyValue(obj, name).value)
  {
    GetPropertyValueLast(obj, name);
    if GetPropertyValue(obj, name).Some? {
      var i :| 0 <= i < |obj.properties| && GetPropertyValue(obj, name).value == obj.properties[i].value;
      assert Nested(obj.properties[i]);
    }
  }

  /** A walk along one name is a property lookup. */
  lemma PathValueOne(obj: Value, name: string)
    requires obj.ObjectValue? && Nested(obj)
    ensures PathValue(obj, [name]) == Ok(GetPropertyValue(obj, name))
  {
    NestedPropertyValue(obj, name);
  }

  /**
   * `getPropertyValueFromStack`: pops names off the caller's stack and looks
   * each one up in the current value; `rest` is the stack the caller is left
   * with.
   */
  method GetPropertyValueFromStack(obj: Value, stack: seq<string>) returns (r: Result<Option<Value>>, rest: seq<string>)
    requires obj.ObjectValue? && Nested(obj)
    ensures r == PathValue(obj, stack)
    ensures rest == PathRest(obj, stack)
  {
    var result: Option<Value> := Some(obj);
    rest := stack;
    while result.Some? && |rest| > 0
      invariant result.Some? ==> Nested(result.value) && PathValue(obj, stack) == PathValue(result.value, rest)
      invariant result.Some? ==> PathRest(obj, stack) == PathRest(result.value, rest)
      invariant result.None? ==> PathValue(obj, stack) == Ok(None) && PathRest(obj, stack) == rest
      decreases |rest|
    {
      var current := result.value;
      if !current.ObjectValue? {
        return Err("TypeError: Cannot read property 'getPropertyValue' of null"), rest;
      }
      var name := rest[|rest| - 1];
      NestedPropertyValue(current, name);
      rest := rest[..|rest| - 1];
      result := GetPropertyValue(current, name);
    }
    r := Ok(result);
  }
}
