/**
 * The cursor queries of src/DigitalTwin/DigitalTwinMetaModelJsonParser.ts
 * and src/pnp/PnPMetaModelJsonParser.ts, which share their logic: walking a
 * path of keys and indexes into a parsed value, finding the path of
 * containers around an offset, the model type in force at an offset, the
 * text range a completion replaces, and whether the offset sits where a
 * string value goes.
 */
module MetaModelJsonParser {
  import opened Wrappers
  import opened Language
  import opened JsonTokenizer
  import opened JsonValues
  import opened JsonParseResult

  /** One step of a path: a property name or an array index. */
  datatype PathStep = Key(name: string) | Index(index: nat)

  // ----- property lookup by position ----------------------------------------

  /** The index of the last property named `name`, or -1. */
  function LastNamed(props: seq<Value>, name: string): (r: int)
    requires IsPropertyList(props)
    ensures -1 <= r < |props|
    ensures r >= 0 ==> NameOf(props[r]) == name && forall j :: r < j < |props| ==> NameOf(props[j]) != name
    ensures r == -1 <==> forall j :: 0 <= j < |props| ==> NameOf(props[j]) != name
    decreases |props|
  {
    if |props| == 0 then -1
    else if NameOf(props[|props| - 1]) == name then |props| - 1
    else
      var front := props[..|props| - 1];
      assert forall j :: 0 <= j < |front| ==> front[j] == props[j];
      LastNamed(front, name)
  }

  /** `getPropertyValue` answers with the value of the last property of that name. */
  lemma LastNamedLookup(obj: Value, name: string)
    requires obj.ObjectValue? && IsPropertyList(obj.properties)
    ensures var k := LastNamed(obj.properties, name);
      GetPropertyValue(obj, name) == if k < 0 then None else Some(obj.properties[k].value)
  {
    GetPropertyValueLast(obj, name);
    var k := LastNamed(obj.properties, name);
    if GetPropertyValue(obj, name).Some? {
      var i :| 0 <= i < |obj.properties| && NameOf(obj.properties[i]) == name &&
        GetPropertyValue(obj, name).value == obj.properties[i].value &&
        forall j :: i < j < |obj.properties| ==> NameOf(obj.properties[j]) != name;
      assert i == k;
    }
  }

  /** Every name in `propertyNames` has a last property. */
  lemma NamesHaveLast(props: seq<Value>)
    requires IsPropertyList(props)
    ensures forall n <- NamesOf(props) :: LastNamed(props, n) >= 0
  {
    forall n <- NamesOf(props)
      ensures LastNamed(props, n) >= 0
    {
      NamesOfNames(props, n);
    }
  }

  /** The values of an object's properties, in the order of `propertyNames`. */
  function PropertyValues(obj: Value): (r: seq<Value>)
    requires obj.ObjectValue? && IsPropertyList(obj.properties)
    ensures |r| == |PropertyNames(obj)|
  {
    var props := obj.properties;
    var names := PropertyNames(obj);
    NamesHaveLast(props);
    seq(|names|, i requires 0 <= i < |names| => props[LastNamed(props, names[i])].value)
  }

  /** Each listed value is what `getPropertyValue` gives for the name at the same place. */
  lemma PropertyValuesLookup(obj: Value, i: int)
    requires obj.ObjectValue? && IsPropertyList(obj.properties)
    requires 0 <= i < |PropertyNames(obj)|
    ensures GetPropertyValue(obj, PropertyNames(obj)[i]) == Some(PropertyValues(obj)[i])
  {
    NamesHaveLast(obj.properties);
    LastNamedLookup(obj, PropertyNames(obj)[i]);
  }

  // ----- getJsonValueFromStack ----------------------------------------------

  /**
   * The value a path leads to: a name steps into an object that has that
   * property, an index into an array that long; any other step gives null.
   */
  function ValueFromStack(v: Value, stack: seq<PathStep>): (r: Option<Value>)
    requires Nested(v)
    ensures r.Some? ==> Nested(r.value)
    decreases |stack|
  {
    if stack == [] then Some(v)
    else
      match stack[0]
      case Key(key) =>
        if !v.ObjectValue? || !HasProperty(v, key) then None
        else
          NestedPropertyValue(v, key);
          ValueFromStack(GetPropertyValue(v, key).value, stack[1..])
      case Index(index) =>
        if !v.ArrayValue? || |v.elements| <= index then None
        else ValueFromStack(v.elements[index], stack[1..])
  }

  /** `getJsonValueFromStack`: follows the steps one by one and gives up at the first that fails. */
  method GetJsonValueFromStack(v: Value, stack: seq<PathStep>) returns (r: Option<Value>)
    requires Nested(v)
    ensures r == ValueFromStack(v, stack)
  {
    var jsonValue := v;
    for i := 0 to |stack|
      invariant Nested(jsonValue)
      invariant ValueFromStack(v, stack) == ValueFromStack(jsonValue, stack[i..])
    {
      assert stack[i..][1..] == stack[i + 1..];
      match stack[i]
      case Key(key) =>
        if !jsonValue.ObjectValue? || !HasProperty(jsonValue, key) {
          return None;
        }
        NestedPropertyValue(jsonValue, key);
        jsonValue := GetPropertyValue(jsonValue, key).value;
      case Index(index) =>
        if !jsonValue.ArrayValue? || |jsonValue.elements| <= index {
          return None;
        }
        jsonValue := jsonValue.elements[index];
    }
    assert stack[|stack|..] == [];
    return Some(jsonValue);
  }

  /** Following two paths one after the other is following their concatenation. */
  lemma {:induction false} ValueFromStackAppend(v: Value, a: seq<PathStep>, b: seq<PathStep>)
    requires Nested(v)
    ensures ValueFromStack(v, a + b) == match ValueFromStack(v, a) case None => None case Some(w) => ValueFromStack(w, b)
    decreases |a|
  {
    if a != [] {
      assert (a + b)[0] == a[0] && (a + b)[1..] == a[1..] + b;
      match a[0]
      case Key(key) =>
        if v.ObjectValue? && HasProperty(v, key) {
          NestedPropertyValue(v, key);
          ValueFromStackAppend(GetPropertyValue(v, key).value, a[1..], b);
        }
      case Index(index) =>
        if v.ArrayValue? && index < |v.elements| {
          ValueFromStackAppend(v.elements[index], a[1..], b);
        }
    } else {
      assert a + b == b;
    }
  }

  // ----- getContextFromOffset -----------------------------------------------

  /** Whether a value's span reaches the offset, the index right after it included. */
  predicate Touches(v: Value, offset: int)
  {
    v.span.Contains(offset, true)
  }

  /** The index of the first value, from `i` on, that touches the offset, or -1. */
  function FirstTouching(values: seq<Value>, offset: int, i: nat := 0): (r: int)
    requires i <= |values|
    ensures r == -1 || i <= r < |values|
    ensures r == -1 <==> forall j :: i <= j < |values| ==> !Touches(values[j], offset)
    ensures r >= 0 ==> Touches(values[r], offset) && forall j :: i <= j < r ==> !Touches(values[j], offset)
    decreases |values| - i
  {
    if i == |values| then -1
    else if Touches(values[i], offset) then i
    else FirstTouching(values, offset, i + 1)
  }

  /**
   * `getContextFromOffset`: for an array, the index of the first element
   * that reaches the offset; for an object, the first property name (in
   * `propertyNames` order) whose value reaches it; each followed by the path
   * inside that child. Anything else, or no such child, gives the empty path.
   */
  function ContextFromOffset(v: Value, offset: int): (r: seq<PathStep>)
    requires Nested(v)
    ensures r == [] <==> TouchedChild(v, offset).None?
    ensures r != [] ==> (r[0].Index? <==> v.ArrayValue?)
    decreases v
  {
    match v
    case ArrayValue(_, elements) =>
      var i := FirstTouching(elements, offset);
      if i < 0 then [] else [Index(i)] + ContextFromOffset(elements[i], offset)
    case ObjectValue(_, props) =>
      var values := PropertyValues(v);
      var k := FirstTouching(values, offset);
      if k < 0 then []
      else
        NamesHaveLast(props);
        var j := LastNamed(props, PropertyNames(v)[k]);
        assert values[k] == props[j].value && Nested(props[j]);
        [Key(PropertyNames(v)[k])] + ContextFromOffset(values[k], offset)
    case _ => []
  }

  /** The child `getContextFromOffset` descends into, if any. */
  function TouchedChild(v: Value, offset: int): (r: Option<Value>)
    requires Nested(v)
    ensures r.Some? ==> Nested(r.value) && Touches(r.value, offset)
  {
    match v
    case ArrayValue(_, elements) =>
      var i := FirstTouching(elements, offset);
      if i < 0 then None else Some(elements[i])
    case ObjectValue(_, props) =>
      var values := PropertyValues(v);
      var k := FirstTouching(values, offset);
      if k < 0 then None
      else
        NamesHaveLast(props);
        var j := LastNamed(props, PropertyNames(v)[k]);
        assert values[k] == props[j].value && Nested(props[j]);
        Some(values[k])
    case _ => None
  }

  /**
   * The path found for an offset leads back, through the lookup of
   * `getJsonValueFromStack`, to a value that reaches the offset (the whole
   * value for an empty path) and has no child that does.
   */
  lemma {:induction false} ContextLeadsBack(v: Value, offset: int)
    requires Nested(v)
    ensures var path := ContextFromOffset(v, offset);
      var w := ValueFromStack(v, path);
      w.Some? && (path != [] ==> Touches(w.value, offset)) && TouchedChild(w.value, offset).None?
    decreases v
  {
    var path := ContextFromOffset(v, offset);
    match v
    case ArrayValue(_, elements) =>
      var i := FirstTouching(elements, offset);
      if i >= 0 {
        ContextLeadsBack(elements[i], offset);
        assert path[1..] == ContextFromOffset(elements[i], offset);
        if path[1..] == [] {
          assert ValueFromStack(elements[i], []) == Some(elements[i]);
        }
      }
    case ObjectValue(_, props) =>
      var values := PropertyValues(v);
      var k := FirstTouching(values, offset);
      if k >= 0 {
        NamesHaveLast(props);
        var j := LastNamed(props, PropertyNames(v)[k]);
        assert values[k] == props[j].value && Nested(props[j]);
        PropertyValuesLookup(v, k);
        PropertyNamesAreKeys(v, PropertyNames(v)[k]);
        ContextLeadsBack(values[k], offset);
        assert path[1..] == ContextFromOffset(values[k], offset);
        if path[1..] == [] {
          assert ValueFromStack(values[k], []) == Some(values[k]);
        }
      }
    case _ =>
  }

  // ----- the model type at an offset ----------------------------------------

  /** `toFriendlyString`: a string's text, a number's text, the literal of a boolean or null, else a placeholder. */
  function FriendlyString(v: Value): string
  {
    match v
    case ObjectValue(_, _) => "(object)"
    case PropertyValue(_, _, _) => "(property)"
    case ArrayValue(_, _) => "(array)"
    case StringValue(_, s) => s
    case NumberValue(_, text) => text
    case BooleanValue(_, b) => if b then "true" else "false"
    case NullValue(_) => "null"
  }

  /** The names that set the model type: those of an interface and of a capability model. */
  datatype TypeNames = TypeNames(interfaceType: string, capabilityModelType: string)
  {
    predicate Has(s: string) { s == interfaceType || s == capabilityModelType }
  }

  /** The type an object declares in its `@type` when that is one of the names, else the current type. */
  function DeclaredType(v: Value, current: string, names: TypeNames): (r: string)
    requires v.ObjectValue? && IsPropertyList(v.properties)
  {
    if HasProperty(v, "@type") && names.Has(FriendlyString(GetPropertyValue(v, "@type").value))
    then FriendlyString(GetPropertyValue(v, "@type").value)
    else current
  }

  /**
   * `getDigitalTwinContextTypeFromOffset` / `getPnpContextTypeFromOffset`:
   * the current type, updated by each object on the way down to the offset
   * whose `@type` is an interface or a capability model.
   */
  function ContextType(v: Value, offset: int, current: string, names: TypeNames): string
    requires Nested(v)
    decreases v
  {
    match v
    case ArrayValue(_, elements) =>
      var i := FirstTouching(elements, offset);
      if i < 0 then current else ContextType(elements[i], offset, current, names)
    case ObjectValue(_, props) =>
      var current' := DeclaredType(v, current, names);
      var values := PropertyValues(v);
      var k := FirstTouching(values, offset);
      if k < 0 then current'
      else
        NamesHaveLast(props);
        var j := LastNamed(props, PropertyNames(v)[k]);
        assert values[k] == props[j].value && Nested(props[j]);
        ContextType(values[k], offset, current', names)
    case _ => current
  }

  /** Whether a value is an object whose `@type` reads `t`. */
  predicate DeclaresType(w: Option<Value>, t: string)
  {
    w.Some? && w.value.ObjectValue? && IsPropertyList(w.value.properties) &&
    HasProperty(w.value, "@type") && FriendlyString(GetPropertyValue(w.value, "@type").value) == t
  }

  /**
   * The model type at an offset is either the one given, or an interface or
   * capability-model name declared by an object on the path to the offset.
   */
  lemma {:induction false} ContextTypeDeclaredOnPath(v: Value, offset: int, current: string, names: TypeNames)
    requires Nested(v)
    ensures var r := ContextType(v, offset, current, names);
      var path := ContextFromOffset(v, offset);
      r == current ||
      (names.Has(r) && exists n :: 0 <= n <= |path| && DeclaresType(ValueFromStack(v, path[..n]), r))
    decreases v, 1
  {
    match v
    case ArrayValue(_, _) => ArrayDeclaredOnPath(v, offset, current, names);
    case ObjectValue(_, _) => ObjectDeclaredOnPath(v, offset, current, names);
    case _ =>
  }

  lemma {:induction false} ArrayDeclaredOnPath(v: Value, offset: int, current: string, names: TypeNames)
    requires Nested(v) && v.ArrayValue?
    ensures var r := ContextType(v, offset, current, names);
      var path := ContextFromOffset(v, offset);
      r == current ||
      (names.Has(r) && exists n :: 0 <= n <= |path| && DeclaresType(ValueFromStack(v, path[..n]), r))
    decreases v, 0
  {
    var r := ContextType(v, offset, current, names);
    var i := FirstTouching(v.elements, offset);
    if i >= 0 {
      var child := v.elements[i];
      var sub := ContextFromOffset(child, offset);
      assert ContextFromOffset(v, offset) == [Index(i)] + sub;
      assert r == ContextType(child, offset, current, names);
      ContextTypeDeclaredOnPath(child, offset, current, names);
      if r != current {
        assert ValueFromStack(v, [Index(i)]) == Some(child);
        var m := ExtendDeclared(v, Index(i), child, sub, r);
        assert names.Has(r);
        assert m <= |ContextFromOffset(v, offset)|;
        assert DeclaresType(ValueFromStack(v, ContextFromOffset(v, offset)[..m]), r);
      }
    }
  }

  lemma {:induction false} ObjectDeclaredOnPath(v: Value, offset: int, current: string, names: TypeNames)
    requires Nested(v) && v.ObjectValue?
    ensures var r := ContextType(v, offset, current, names);
      var path := ContextFromOffset(v, offset);
      r == current ||
      (names.Has(r) && exists n :: 0 <= n <= |path| && DeclaresType(ValueFromStack(v, path[..n]), r))
    decreases v, 0
  {
    var r := ContextType(v, offset, current, names);
    var path := ContextFromOffset(v, offset);
    var current' := DeclaredType(v, current, names);
    OwnDeclared(v, current, names);
    if current' != current {
      assert path[..0] == [];
      assert DeclaresType(ValueFromStack(v, path[..0]), current');
    }
    var found, key, j := TouchedProperty(v, offset, current, names);
    if found {
      var child := v.properties[j].value;
      var sub := ContextFromOffset(child, offset);
      ContextTypeDeclaredOnPath(child, offset, current', names);
      if r != current' {
        var m := ExtendDeclared(v, Key(key), child, sub, r);
        assert names.Has(r);
        assert m <= |path|;
        assert DeclaresType(ValueFromStack(v, path[..m]), r);
      }
    }
  }

  /** An object's own `@type`, when it changes the type, is a declaration at the empty path. */
  lemma OwnDeclared(v: Value, current: string, names: TypeNames)
    requires Nested(v) && v.ObjectValue?
    ensures var current' := DeclaredType(v, current, names);
      current' == current || (names.Has(current') && DeclaresType(ValueFromStack(v, []), current'))
  {
  }

  /**
   * One step of the descent into an object: either no property value
   * reaches the offset, or the step is the key of property `j`, whose value
   * the rest of the path and the type are computed in.
   */
  lemma TouchedProperty(v: Value, offset: int, current: string, names: TypeNames)
    returns (found: bool, key: string, j: nat)
    requires Nested(v) && v.ObjectValue?
    ensures !found ==> (ContextFromOffset(v, offset) == [] &&
      ContextType(v, offset, current, names) == DeclaredType(v, current, names))
    ensures found ==> (
      j < |v.properties| && Nested(v.properties[j]) &&
      ValueFromStack(v, [Key(key)]) == Some(v.properties[j].value) &&
      ContextFromOffset(v, offset) == [Key(key)] + ContextFromOffset(v.properties[j].value, offset) &&
      ContextType(v, offset, current, names) ==
        ContextType(v.properties[j].value, offset, DeclaredType(v, current, names), names))
  {
    var values := PropertyValues(v);
    var k := FirstTouching(values, offset);
    found := k >= 0;
    key := "";
    j := 0;
    if found {
      NamesHaveLast(v.properties);
      key := PropertyNames(v)[k];
      j := LastNamed(v.properties, key);
      assert values[k] == v.properties[j].value && Nested(v.properties[j]);
      PropertyValuesLookup(v, k);
      PropertyNamesAreKeys(v, key);
      assert ValueFromStack(v, [Key(key)]) == Some(values[k]);
    }
  }

  /** A type declared on a path below the child that a step leads to is declared on the longer path. */
  lemma ExtendDeclared(v: Value, step: PathStep, child: Value, sub: seq<PathStep>, r: string) returns (m: nat)
    requires Nested(v) && Nested(child)
    requires ValueFromStack(v, [step]) == Some(child)
    requires exists n :: 0 <= n <= |sub| && DeclaresType(ValueFromStack(child, sub[..n]), r)
    ensures m <= |sub| + 1 && DeclaresType(ValueFromStack(v, ([step] + sub)[..m]), r)
  {
    var n :| 0 <= n <= |sub| && DeclaresType(ValueFromStack(child, sub[..n]), r);
    assert ([step] + sub)[..n + 1] == [step] + sub[..n];
    ValueFromStackAppend(v, [step], sub[..n]);
    m := n + 1;
  }

  // ----- getTokenRange ------------------------------------------------------

  /** Whether a token reaches the offset, the index right after it included. */
  predicate TokenTouches(t: Token, offset: int)
  {
    TokenSpan(t).Contains(offset, true)
  }

  /** The index of the first token, from `i` on, that reaches the offset, or -1. */
  function FirstTouchingToken(tokens: seq<Token>, offset: int, i: nat := 0): (r: int)
    requires i <= |tokens|
    ensures r == -1 || i <= r < |tokens|
    ensures r == -1 <==> forall j :: i <= j < |tokens| ==> !TokenTouches(tokens[j], offset)
    ensures r >= 0 ==> TokenTouches(tokens[r], offset) && forall j :: i <= j < r ==> !TokenTouches(tokens[j], offset)
    decreases |tokens| - i
  {
    if i == |tokens| then -1
    else if TokenTouches(tokens[i], offset) then i
    else FirstTouchingToken(tokens, offset, i + 1)
  }

  /** The range a completion replaces: `{startIndex, endIndex}`, the end exclusive. */
  datatype TokenRange = TokenRange(startIndex: int, endIndex: int)

  const UndefinedSpanError := "TypeError: Cannot read property 'span' of undefined"

  /** From the start of the token before `i` to the end of the token after it; there may be no token after it. */
  function AcrossQuotes(tokens: seq<Token>, i: int): (r: Result<TokenRange>)
    requires 0 < i < |tokens|
    ensures r.Err? <==> i + 1 == |tokens|
  {
    if i + 1 < |tokens|
    then Ok(TokenRange(TokenSpan(tokens[i - 1]).startIndex, TokenSpan(tokens[i + 1]).AfterEndIndex()))
    else Err(UndefinedSpanError)
  }

  /**
   * The range for the token at `i` that reaches the offset: an offset
   * strictly inside it, right after it, or at its start, tried in that order;
   * after a quoted-string token the range runs across the neighbours, and
   * right after a quoted string it runs one past its end.
   */
  function RangeAt(tokens: seq<Token>, i: int, offset: int): Result<TokenRange>
    requires 0 <= i < |tokens|
  {
    var s := TokenSpan(tokens[i]);
    var afterQuoted := i > 0 && tokens[i - 1].tokenType == QuotedString;
    var own := Ok(TokenRange(s.startIndex, s.AfterEndIndex()));
    if s.startIndex < offset < s.AfterEndIndex() then
      if afterQuoted then AcrossQuotes(tokens, i) else own
    else if s.AfterEndIndex() == offset then
      if tokens[i].tokenType == QuotedString then Ok(TokenRange(s.startIndex, s.AfterEndIndex() + 1))
      else if afterQuoted then AcrossQuotes(tokens, i) else own
    else
      if afterQuoted then AcrossQuotes(tokens, i) else own
  }

  /**
   * `getTokenRange`: the empty range at the offset when no token reaches it;
   * otherwise the range for the first token that does.
   */
  method GetTokenRange(tokens: seq<Token>, offset: int) returns (r: Result<TokenRange>)
    ensures FirstTouchingToken(tokens, offset) < 0 ==> r == Ok(TokenRange(offset, offset))
    ensures FirstTouchingToken(tokens, offset) >= 0 ==> r == RangeAt(tokens, FirstTouchingToken(tokens, offset), offset)
  {
    for i := 0 to |tokens|
      invariant forall j :: 0 <= j < i ==> !TokenTouches(tokens[j], offset)
    {
      var span := TokenSpan(tokens[i]);
      var afterQuoted := i > 0 && tokens[i - 1].tokenType == QuotedString;
      if span.startIndex < offset < span.AfterEndIndex() {
        if afterQuoted {
          if i + 1 == |tokens| {
            return Err(UndefinedSpanError);
          }
          return Ok(TokenRange(TokenSpan(tokens[i - 1]).startIndex, TokenSpan(tokens[i + 1]).AfterEndIndex()));
        }
        return Ok(TokenRange(span.startIndex, span.AfterEndIndex()));
      } else if span.AfterEndIndex() == offset {
        if tokens[i].tokenType == QuotedString {
          return Ok(TokenRange(span.startIndex, span.AfterEndIndex() + 1));
        } else if afterQuoted {
          if i + 1 == |tokens| {
            return Err(UndefinedSpanError);
          }
          return Ok(TokenRange(TokenSpan(tokens[i - 1]).startIndex, TokenSpan(tokens[i + 1]).AfterEndIndex()));
        }
        return Ok(TokenRange(span.startIndex, span.AfterEndIndex()));
      } else if span.startIndex == offset {
        if afterQuoted {
          if i + 1 == |tokens| {
            return Err(UndefinedSpanError);
          }
          return Ok(TokenRange(TokenSpan(tokens[i - 1]).startIndex, TokenSpan(tokens[i + 1]).AfterEndIndex()));
        }
        return Ok(TokenRange(span.startIndex, span.AfterEndIndex()));
      }
    }
    return Ok(TokenRange(offset, offset));
  }

  /**
   * Over ordered tokens, the range found for a token reaching the offset
   * holds both that token and the offset.
   */
  lemma RangeCoversToken(tokens: seq<Token>, i: int, offset: int)
    requires Ordered(tokens) && 0 <= i < |tokens| && TokenTouches(tokens[i], offset)
    requires RangeAt(tokens, i, offset).Ok?
    ensures var range := RangeAt(tokens, i, offset).value;
      range.startIndex <= TokenSpan(tokens[i]).startIndex &&
      TokenSpan(tokens[i]).AfterEndIndex() <= range.endIndex &&
      range.startIndex <= offset <= range.endIndex
  {
    if i > 0 {
      assert tokens[i - 1].startIndex + tokens[i - 1].Length() <= tokens[i].startIndex;
    }
    if i + 1 < |tokens| {
      assert tokens[i].startIndex + tokens[i].Length() <= tokens[i + 1].startIndex;
    }
  }

  // ----- isValueString ------------------------------------------------------

  /** A '[' comes before token `i` with no '{' between them. */
  predicate OpenBracketBefore(tokens: seq<Token>, i: int)
    requires 0 <= i <= |tokens|
  {
    exists k :: 0 <= k < i && tokens[k].tokenType == LeftSquare &&
      forall m :: k < m < i ==> tokens[m].tokenType != LeftCurly
  }

  /**
   * Where a string value goes: the first token reaching the offset is not
   * the first token, and it is a quoted string right after a colon, or it
   * lies inside an array that no object opened after.
   */
  predicate ValueStringAt(tokens: seq<Token>, offset: int)
  {
    var i := FirstTouchingToken(tokens, offset);
    i >= 1 &&
    ((tokens[i].tokenType == QuotedString && tokens[i - 1].tokenType == ColonToken) || OpenBracketBefore(tokens, i))
  }

  /** `isValueString`: finds the token at the offset, then looks back for '[' before any '{'. */
  method IsValueString(tokens: seq<Token>, offset: int) returns (r: bool)
    ensures r == ValueStringAt(tokens, offset)
  {
    for i := 0 to |tokens|
      invariant forall j :: 0 <= j < i ==> !TokenTouches(tokens[j], offset)
    {
      if TokenTouches(tokens[i], offset) {
        if i >= 1 {
          if tokens[i].tokenType == QuotedString && tokens[i - 1].tokenType == ColonToken {
            return true;
          }
          var tokenIndex := i - 1;
          while tokenIndex >= 0
            invariant -1 <= tokenIndex < i
            invariant forall m :: tokenIndex < m < i ==> tokens[m].tokenType != LeftCurly && tokens[m].tokenType != LeftSquare
          {
            if tokens[tokenIndex].tokenType == LeftCurly {
              assert !OpenBracketBefore(tokens, i) by {
                forall k | 0 <= k < i && tokens[k].tokenType == LeftSquare
                  ensures exists m :: k < m < i && tokens[m].tokenType == LeftCurly
                {
                  assert k < tokenIndex;
                }
              }
              return false;
            }
            if tokens[tokenIndex].tokenType == LeftSquare {
              return true;
            }
            tokenIndex := tokenIndex - 1;
          }
        }
        return false;
      }
    }
    return false;
  }
}
