/**
 * The whole-document validators of src/DigitalTwin/DigitalTwinDiagnostic.ts
 * and src/pnp/PnPDiagnostic.ts: the value-kind checks of `getTypeIssues`,
 * the `@type` of an object (`getType`, `getInvalidTypeIssues`) and the walk
 * of `getJsonValueIssues`/`getObjectIssues` that puts the single-object
 * checks together. The parser's cached queries are used through the
 * functions their answers are proved equal to.
 */
module ObjectDiagnostics {
  import opened Wrappers
  import opened Strings
  import opened JsonValues
  import Language
  import opened MetaModelGraph
  import opened DiagnosticChecks

  // ----- numbers ----------------------------------------------------------------

  predicate IsDigit(c: char)
  {
    '0' <= c <= '9'
  }

  /** The end of the run of digits that starts at `i`. */
  function DigitsEnd(s: string, i: nat): (e: nat)
    requires i <= |s|
    ensures i <= e <= |s|
    ensures forall k :: i <= k < e ==> IsDigit(s[k])
    ensures e == |s| || !IsDigit(s[e])
    decreases |s| - i
  {
    if i < |s| && IsDigit(s[i]) then DigitsEnd(s, i + 1) else i
  }

  /** A decimal number: its digits with the point taken out, how many of them follow the point, and the power of ten. */
  datatype Decimal = Decimal(digits: string, fractionLength: nat, exponent: int)

  /**
   * `Number(text)` on the texts the tokenizer gives a number:
   * [-] digits [. digits] [e|E [+|-] digits], with at least one digit before
   * the exponent and at least one in it; anything else is NaN (None).
   */
  function ReadDecimal(text: string): (r: Option<Decimal>)
    ensures r.Some? ==> r.value.fractionLength <= |r.value.digits|
    ensures r.Some? ==> forall k :: 0 <= k < |r.value.digits| ==> IsDigit(r.value.digits[k])
  {
    var s := if |text| > 0 && text[0] == '-' then text[1..] else text;
    var i := DigitsEnd(s, 0);
    var hasPoint := i < |s| && s[i] == '.';
    var j := if hasPoint then DigitsEnd(s, i + 1) else i;
    var fraction := if hasPoint then s[i + 1..j] else "";
    var digits := s[..i] + fraction;
    assert forall k :: 0 <= k < |digits| ==> IsDigit(digits[k]) by {
      forall k | 0 <= k < |digits| ensures IsDigit(digits[k]) {
        if k < i {
          assert digits[k] == s[k];
        } else {
          assert digits[k] == fraction[k - i] == s[i + 1 + (k - i)];
        }
      }
    }
    if |digits| == 0 then None
    else if j == |s| then Some(Decimal(digits, |fraction|, 0))
    else if s[j] != 'e' && s[j] != 'E' then None
    else
      var signed := j + 1 < |s| && (s[j + 1] == '-' || s[j + 1] == '+');
      var k := if signed then j + 2 else j + 1;
      if k < |s| && DigitsEnd(s, k) == |s| then
        var rest := s[k..];
        assert forall m :: 0 <= m < |rest| ==> IsDigit(rest[m]) by {
          forall m | 0 <= m < |rest| ensures IsDigit(rest[m]) {
            assert rest[m] == s[k + m];
          }
        }
        var x: int := DigitsValue(rest);
        var exponent := if signed && s[j + 1] == '-' then -x else x;
        Some(Decimal(digits, |fraction|, exponent))
      else None
  }

  function Pow10(n: nat): (r: nat)
    ensures r >= 1
  {
    if n == 0 then 1 else 10 * Pow10(n - 1)
  }

  /**
   * `Math.floor(Number(text)) === Number(text)`, read over exact decimals:
   * the value is a whole number, and NaN never is.
   */
  predicate IsIntegral(text: string)
  {
    match ReadDecimal(text)
    case None => false
    case Some(d) =>
      d.exponent >= d.fractionLength || DigitsValue(d.digits) % Pow10(d.fractionLength - d.exponent) == 0
  }

  /** A signed run of digits is a whole number. */
  lemma WholeNumberIsIntegral(sign: string, digits: string)
    requires sign == "" || sign == "-"
    requires |digits| >= 1 && forall k :: 0 <= k < |digits| ==> IsDigit(digits[k])
    ensures IsIntegral(sign + digits)
  {
    var text := sign + digits;
    var s := if |text| > 0 && text[0] == '-' then text[1..] else text;
    if sign == "" {
      assert text[0] == digits[0];
    }
    assert s == digits;
    assert forall k :: 0 <= k < |s| ==> IsDigit(s[k]);
    assert s[..|s|] == digits;
  }

  /** `DigitsEnd` is the end of the run: any position that ends a run of digits from `i` is it. */
  lemma DigitsEndAt(s: string, i: nat, e: nat)
    requires i <= e <= |s|
    requires forall k :: i <= k < e ==> IsDigit(s[k])
    requires e == |s| || !IsDigit(s[e])
    ensures DigitsEnd(s, i) == e
  {
  }

  /** The value of two runs of digits put together. */
  lemma {:induction false} DigitsValueAppend(w: string, f: string)
    requires forall k :: 0 <= k < |w| ==> '0' <= w[k] <= '9'
    requires forall k :: 0 <= k < |f| ==> '0' <= f[k] <= '9'
    ensures DigitsValue(w + f) == DigitsValue(w) * Pow10(|f|) + DigitsValue(f)
    decreases |f|
  {
    if f == [] {
      assert w + f == w;
    } else {
      var g := f[..|f| - 1];
      var c := (f[|f| - 1] - '0') as nat;
      var v, p := DigitsValue(w), Pow10(|g|);
      assert DigitsValue(w + f) == DigitsValue(w + g) * 10 + c by {
        assert (w + f)[..|w + f| - 1] == w + g;
        assert (w + f)[|w + f| - 1] == f[|f| - 1];
      }
      assert DigitsValue(w + g) == v * p + DigitsValue(g) by {
        DigitsValueAppend(w, g);
      }
      assert DigitsValue(f) == DigitsValue(g) * 10 + c;
      assert Pow10(|f|) == p * 10;
      AppendDigitArithmetic(v, p, DigitsValue(g), c, DigitsValue(w + f), DigitsValue(w + g), DigitsValue(f), Pow10(|f|));
    }
  }

  /** The arithmetic step of `DigitsValueAppend`: shifting by one more digit. */
  lemma AppendDigitArithmetic(v: int, p: int, g: int, c: int, whole: int, front: int, tail: int, shift: int)
    requires whole == front * 10 + c && front == v * p + g
    requires tail == g * 10 + c && shift == p * 10
    ensures whole == v * shift + tail
  {
  }

  /** A run of n digits is worth less than 10 to the n. */
  lemma {:induction false} DigitsValueBelow(f: string)
    requires forall k :: 0 <= k < |f| ==> '0' <= f[k] <= '9'
    ensures DigitsValue(f) < Pow10(|f|)
    decreases |f|
  {
    if f != [] {
      DigitsValueBelow(f[..|f| - 1]);
    }
  }

  /** A multiple of p plus a remainder below p leaves that remainder. */
  lemma RemainderAfterShift(a: nat, p: nat, b: nat)
    requires b < p
    ensures (a * p + b) % p == b
  {
    var q := (a * p + b) / p;
    var r := (a * p + b) % p;
    assert q * p + r == a * p + b;
    assert q >= a || (q + 1) * p <= a * p;
    assert q <= a || (a + 1) * p <= q * p;
  }

  /** `Number` of digits, a point and digits reads the two runs, the second as the fraction. */
  lemma ReadFraction(w: string, f: string)
    requires w != [] && forall k :: 0 <= k < |w| ==> '0' <= w[k] <= '9'
    requires forall k :: 0 <= k < |f| ==> '0' <= f[k] <= '9'
    ensures ReadDecimal(w + ("." + f)) == Some(Decimal(w + f, |f|, 0))
  {
    var t := w + ("." + f);
    assert t[0] == w[0];
    assert t[|w|] == '.';
    DigitsEndAt(t, 0, |w|);
    forall k | |w| + 1 <= k < |t| ensures IsDigit(t[k]) {
      assert t[k] == f[k - |w| - 1];
    }
    DigitsEndAt(t, |w| + 1, |t|);
    assert t[..|w|] == w && t[|w| + 1..|t|] == f;
  }

  /**
   * A number written with a point is whole exactly when every digit after
   * the point is 0: `1.5` is not, `1.0` and `1.` are.
   */
  lemma FractionIsWhole(w: string, f: string)
    requires w != [] && forall k :: 0 <= k < |w| ==> '0' <= w[k] <= '9'
    requires forall k :: 0 <= k < |f| ==> '0' <= f[k] <= '9'
    ensures IsIntegral(w + ("." + f)) <==> DigitsValue(f) == 0
  {
    var d := Decimal(w + f, |f|, 0);
    ReadFraction(w, f);
    IntegralOfDecimal(w + ("." + f), d);
    if f != [] {
      DigitsValueAppend(w, f);
      DigitsValueBelow(f);
      RemainderAfterShift(DigitsValue(w), Pow10(|f|), DigitsValue(f));
    }
  }

  /** `IsIntegral` of a text in terms of the decimal it reads as. */
  lemma IntegralOfDecimal(text: string, d: Decimal)
    requires ReadDecimal(text) == Some(d)
    ensures forall k :: 0 <= k < |d.digits| ==> '0' <= d.digits[k] <= '9'
    ensures IsIntegral(text) <==> d.exponent >= d.fractionLength || DigitsValue(d.digits) % Pow10(d.fractionLength - d.exponent) == 0
  {
  }

  /**
   * `Number` of a text laid out as digits, a point, digits, `e` and digits:
   * the digits around the point, the count after it, and the exponent.
   */
  lemma ReadWithExponent(s: string, i: nat, j: nat)
    requires 0 < i < |s| && s[0] != '-' && DigitsEnd(s, 0) == i && s[i] == '.'
    requires DigitsEnd(s, i + 1) == j && j + 1 < |s| && s[j] == 'e' && s[j + 1] != '-' && s[j + 1] != '+'
    requires DigitsEnd(s, j + 1) == |s|
    ensures ReadDecimal(s) == Some(Decimal(s[..i] + s[i + 1..j], j - i - 1, DigitsValue(s[j + 1..])))
  {
  }

  /**
   * An exponent at least as large as the number of fraction digits moves
   * the point past them all and makes a whole number, as in `1.5e1`: for a
   * text of digits, a point at `i`, digits, `e` at `j` and digits.
   */
  lemma ExponentMakesIntegral(s: string, i: nat, j: nat)
    requires 0 < i < |s| && s[0] != '-' && DigitsEnd(s, 0) == i && s[i] == '.'
    requires DigitsEnd(s, i + 1) == j && j + 1 < |s| && s[j] == 'e' && s[j + 1] != '-' && s[j + 1] != '+'
    requires DigitsEnd(s, j + 1) == |s|
    requires DigitsValue(s[j + 1..]) >= j - i - 1
    ensures IsIntegral(s)
  {
    ReadWithExponent(s, i, j);
  }

  /** A sign without digits is NaN, which is never whole. */
  lemma BareSignIsNotIntegral()
    ensures !IsIntegral("-")
  {
    assert "-"[1..] == "";
  }

  // ----- value kinds ------------------------------------------------------------

  /** `valueKind` of a JSON value. */
  datatype ValueKind = ObjectKind | PropertyKind | ArrayKind | StringKind | NumberKind | BooleanKind | NullKind

  function KindOf(v: Value): ValueKind
  {
    match v
    case ObjectValue(_, _) => ObjectKind
    case PropertyValue(_, _, _) => PropertyKind
    case ArrayValue(_, _) => ArrayKind
    case StringValue(_, _) => StringKind
    case NumberValue(_, _) => NumberKind
    case BooleanValue(_, _) => BooleanKind
    case NullValue(_) => NullKind
  }

  /** The `switch (valueType)` of `getTypeIssues`: the kind a value type name calls for. */
  function KindOfValueType(t: string): (r: Option<ValueKind>)
    ensures r.Some? <==> t in ["string", "int", "long", "float", "double", "boolean"]
  {
    if t == "string" then Some(StringKind)
    else if t in ["int", "long", "float", "double"] then Some(NumberKind)
    else if t == "boolean" then Some(BooleanKind)
    else None
  }

  /** The kinds the value types call for, in order, the unknown ones dropped. */
  function KindsOf(types: seq<string>): (r: seq<ValueKind>)
    ensures forall k :: k in r <==> exists t :: t in types && KindOfValueType(t) == Some(k)
  {
    if types == [] then []
    else
      var front := types[..|types| - 1];
      var last := types[|types| - 1];
      assert types == front + [last];
      KindsOf(front) + match KindOfValueType(last) case Some(k) => [k] case None => []
  }

  /** The PnP `validTypesFriendlyString` name of a kind. */
  function KindName(k: ValueKind): string
  {
    match k
    case StringKind => "String"
    case NumberKind => "Number"
    case BooleanKind => "Boolean"
    case ObjectKind => "Object"
    case ArrayKind => "Array"
    case _ => ""
  }

  function KindNames(ks: seq<ValueKind>): (r: seq<string>)
    ensures |r| == |ks| && forall i :: 0 <= i < |ks| ==> r[i] == KindName(ks[i])
  {
    if ks == [] then [] else [KindName(ks[0])] + KindNames(ks[1..])
  }

  // ----- the validator's setting -------------------------------------------------

  /**
   * What a validator works with: the parser variant, the Interface and the
   * CapabilityModel (PnP: Template) contexts it switches to, and the graph
   * with the ranks that witness its scans terminate.
   */
  datatype Checker = Checker(variant: Variant, interfaceCtx: Context, modelCtx: Context, edges: seq<GraphEdge>,
                             superRank: string -> nat, typeRank: string -> nat, valueRank: string -> nat)
  {
    predicate Ranked()
    {
      SuperclassRanked(edges, superRank) && TypeRanked(edges, typeRank) && ValueRanked(edges, valueRank)
    }
  }

  /**
   * What `getTypeIssues` expects of a value: the kinds it may have, the text
   * that lists them, and the message for a number that is not whole when
   * only whole numbers are allowed.
   */
  datatype Expectation = Expectation(valid: seq<ValueKind>, expected: string, integral: Option<string>)

  /**
   * The expectation for the value of `key` (empty at the top level): an
   * object at the top, an array for an array property that is not itself an
   * element, else the kinds of the key's value types; nothing is expected
   * of a key that does not resolve.
   */
  function Expected(c: Checker, ctx: Context, key: string, isArrayElement: bool): (r: Option<Expectation>)
    requires c.Ranked()
    ensures key == "" ==> r.Some? && r.value.valid == [ObjectKind]
    ensures key != "" && !isArrayElement && IsArrayFromShortName(c.variant, key) ==> r.Some? && r.value.valid == [ArrayKind]
    ensures r.Some? ==> r.value.valid != []
  {
    if key == "" then
      Some(Expectation([ObjectKind], if c.variant == DigitalTwin then "object" else "Object", None))
    else if !isArrayElement && IsArrayFromShortName(c.variant, key) then
      Some(Expectation([ArrayKind], if c.variant == DigitalTwin then "array" else "Array", None))
    else
      match IdFromShortName(c.variant, ctx, key)
      case None => None
      case Some(id) =>
        if id == "" then None
        else if c.variant == DigitalTwin then
          var raw := ValueTypesFromId(c.edges, c.valueRank, id);
          var kinds := KindsOf(raw);
          Some(Expectation(if kinds == [] then [ObjectKind, StringKind] else kinds, Join(raw, ", "),
            if "float" in raw || "double" in raw then None
            else Some("Invalid value. Valid value is " + Join(raw, ", ") + ".")))
        else
          var t := ValueTypeFromId(c.edges, c.valueRank, id);
          var kinds := match KindOfValueType(t) case Some(k) => [k] case None => [ObjectKind, StringKind];
          Some(Expectation(kinds, Join(KindNames(kinds), ", "),
            if t == "int" || t == "long" then Some("Invalid value. Valid value is " + t + " number.") else None))
  }

  /** A PnP property of unknown value type accepts an object or a string, nothing else. */
  lemma PnPUnknownTypeAcceptsObjectOrString(c: Checker, ctx: Context, key: string, isArrayElement: bool, id: string)
    requires c.Ranked() && c.variant == PnP && key != ""
    requires !(!isArrayElement && IsArrayFromShortName(PnP, key))
    requires IdFromShortName(PnP, ctx, key) == Some(id) && id != ""
    requires ValueTypeFromId(c.edges, c.valueRank, id) !in ["string", "int", "long", "float", "double", "boolean"]
    ensures Expected(c, ctx, key, isArrayElement).Some?
    ensures Expected(c, ctx, key, isArrayElement).value.valid == [ObjectKind, StringKind]
    ensures Expected(c, ctx, key, isArrayElement).value.expected == "Object, String"
  {
    assert KindNames([ObjectKind, StringKind]) == ["Object", "String"];
    assert Join(["Object", "String"], ", ") == "Object" + ", " + Join(["String"], ", ");
  }

  // ----- value-kind issues --------------------------------------------------------

  /** The index of the last property named `name`, whose value `getPropertyValue` answers; -1 when there is none. */
  function LastNamed(props: seq<Value>, name: string): (r: int)
    requires IsPropertyList(props)
    ensures -1 <= r < |props|
    ensures r >= 0 ==> NameOf(props[r]) == name && name in MapOf(props) && MapOf(props)[name] == props[r].value
    ensures r == -1 ==> name !in MapOf(props)
  {
    if props == [] then -1
    else if NameOf(props[|props| - 1]) == name then |props| - 1
    else
      var front := props[..|props| - 1];
      var r := LastNamed(front, name);
      assert r >= 0 ==> front[r] == props[r];
      r
  }

  /** The index of the property whose value a property name stands for. */
  function PropertyIndex(obj: Value, name: string): (k: nat)
    requires obj.ObjectValue? && IsPropertyList(obj.properties)
    requires name in PropertyNames(obj)
    ensures k < |obj.properties| && NameOf(obj.properties[k]) == name
    ensures GetPropertyValue(obj, name) == Some(obj.properties[k].value)
  {
    PropertyNamesAreKeys(obj, name);
    LastNamed(obj.properties, name)
  }

  /** The value of a nested object's property is nested and smaller. */
  lemma NestedProperty(obj: Value, k: nat)
    requires obj.ObjectValue? && Nested(obj) && k < |obj.properties|
    ensures Nested(obj.properties[k].value)
    ensures Within(obj.properties[k].span, obj.span) && Within(obj.properties[k].value.span, obj.properties[k].span)
    ensures Within(obj.properties[k].name.span, obj.properties[k].span)
  {
    assert obj.properties[k] in obj.properties;
    assert Nested(obj.properties[k]);
  }

  /**
   * `getTypeIssues`: a value of a kind not expected draws one issue and
   * nothing is checked inside it; otherwise the elements of an array (as
   * elements), the properties of an object (each under its own name) and
   * the wholeness of a number are checked.
   */
  function TypeIssues(c: Checker, ctx: Context, v: Value, key: string, isArrayElement: bool): (r: seq<Issue>)
    requires c.Ranked() && Nested(v)
    ensures AllIn(r, v.span)
    decreases v, 1
  {
    match Expected(c, ctx, key, isArrayElement)
    case None => []
    case Some(e) =>
      if KindOf(v) !in e.valid then [IssueAt(v.span, "Unexpected value. Expect " + e.expected + ".")]
      else if v.ArrayValue? then ElementTypeIssues(c, ctx, v, key, |v.elements|)
      else if v.ObjectValue? then PropertyTypeIssues(c, ctx, v, |PropertyNames(v)|)
      else if v.NumberValue? && e.integral.Some? && !IsIntegral(v.text) then [IssueAt(v.span, e.integral.value)]
      else []
  }

  /** The type issues of the first `n` elements of an array, each checked as an element. */
  function ElementTypeIssues(c: Checker, ctx: Context, v: Value, key: string, n: nat): (r: seq<Issue>)
    requires c.Ranked() && v.ArrayValue? && Nested(v) && n <= |v.elements|
    ensures AllIn(r, v.span)
    decreases v, 0, n
  {
    if n == 0 then []
    else
      assert v.elements[n - 1] in v.elements;
      ElementTypeIssues(c, ctx, v, key, n - 1) + TypeIssues(c, ctx, v.elements[n - 1], key, true)
  }

  /** The type issues of the values of the first `n` property names of an object, each under its name. */
  function PropertyTypeIssues(c: Checker, ctx: Context, v: Value, n: nat): (r: seq<Issue>)
    requires c.Ranked() && v.ObjectValue? && Nested(v) && n <= |PropertyNames(v)|
    ensures AllIn(r, v.span)
    decreases v, 0, n
  {
    if n == 0 then []
    else
      var name := PropertyNames(v)[n - 1];
      var k := PropertyIndex(v, name);
      NestedProperty(v, k);
      PropertyTypeIssues(c, ctx, v, n - 1) + TypeIssues(c, ctx, v.properties[k].value, name, false)
  }

  /** A kind mismatch is reported once, over the whole value, and nothing inside the value is looked at. */
  lemma KindMismatchReportedAlone(c: Checker, ctx: Context, v: Value, key: string, isArrayElement: bool)
    requires c.Ranked() && Nested(v)
    requires Expected(c, ctx, key, isArrayElement).Some?
    requires KindOf(v) !in Expected(c, ctx, key, isArrayElement).value.valid
    ensures TypeIssues(c, ctx, v, key, isArrayElement) ==
      [IssueAt(v.span, "Unexpected value. Expect " + Expected(c, ctx, key, isArrayElement).value.expected + ".")]
  {
  }

  /**
   * A PnP whole-number property rejects a number that is not whole, with
   * the message that names the value type, and accepts a whole one.
   */
  lemma PnPIntRejectsFraction(c: Checker, ctx: Context, key: string, id: string, v: Value)
    requires c.Ranked() && c.variant == PnP && key != "" && !IsArrayFromShortName(PnP, key)
    requires IdFromShortName(PnP, ctx, key) == Some(id) && id != ""
    requires ValueTypeFromId(c.edges, c.valueRank, id) == "int"
    requires v.NumberValue? && Nested(v)
    ensures !IsIntegral(v.text) ==> TypeIssues(c, ctx, v, key, false) == [IssueAt(v.span, "Invalid value. Valid value is int number.")]
    ensures IsIntegral(v.text) ==> TypeIssues(c, ctx, v, key, false) == []
  {
    assert KindOfValueType("int") == Some(NumberKind);
    assert KindNames([NumberKind]) == ["Number"];
    assert Join(["Number"], ", ") == "Number";
    assert "Invalid value. Valid value is " + "int" + " number." == "Invalid value. Valid value is int number.";
    assert Expected(c, ctx, key, false) ==
      Some(Expectation([NumberKind], "Number", Some("Invalid value. Valid value is int number.")));
  }

  // ----- the type of an object ------------------------------------------------------

  /** The type `getType` gives an object: none (null), one name, or the names of an `@type` array. */
  datatype TypeOf = NoType | OneType(name: string) | TypeList(names: seq<string>)

  /** `toFriendlyString`. */
  function FriendlyString(v: Value): string
  {
    match v
    case ObjectValue(_, _) => "(object)"
    case PropertyValue(_, _, _) => "(property)"
    case ArrayValue(_, _) => "(array)"
    case StringValue(_, s) => s
    case NumberValue(_, text) => text
    case BooleanValue(_, b) => if b then "true" else "false"
    case NullValue(_) => "null"
  }

  function FriendlyStrings(es: seq<Value>): (r: seq<string>)
    ensures |r| == |es| && forall i :: 0 <= i < |es| ==> r[i] == FriendlyString(es[i])
  {
    if es == [] then [] else [FriendlyString(es[0])] + FriendlyStrings(es[1..])
  }

  function Spans(es: seq<Value>): (r: seq<Language.Span>)
    ensures |r| == |es| && forall i :: 0 <= i < |es| ==> r[i] == es[i].span
  {
    if es == [] then [] else [es[0].span] + Spans(es[1..])
  }

  /** The type of the whole document: an Interface when its path ends in `.interface.json`, else the model type. */
  function DocumentType(variant: Variant, fsPath: string): string
  {
    if EndsWith(fsPath, ".interface.json") then "Interface" else ModelType(variant)
  }

  /** The name of the model document type: CapabilityModel, or Template for PnP. */
  function ModelType(variant: Variant): string
  {
    if variant == DigitalTwin then "CapabilityModel" else "Template"
  }

  /**
   * The types an object under `key` may have: the document type at the top,
   * the types of the key's id below it; none when the key does not resolve.
   */
  function CandidateTypes(c: Checker, ctx: Context, key: string, fsPath: string): (r: Option<seq<string>>)
    requires c.Ranked()
    ensures key == "" ==> r.Some? && |r.value| == 1 && (r.value[0] == "Interface" <==> EndsWith(fsPath, ".interface.json"))
    ensures key != "" && c.variant == DigitalTwin && Lookup(ctx.terms, key).None? ==> r.None?
    ensures key != "" && r.Some? ==>
      (var id := IdFromShortName(c.variant, ctx, key);
       id.Some? && id.value != "" && r.value == TypesFromId(c.variant, ctx, c.edges, c.typeRank, id.value))
  {
    if key == "" then Some([DocumentType(c.variant, fsPath)])
    else
      match IdFromShortName(c.variant, ctx, key)
      case None => None
      case Some(id) => if id == "" then None else Some(TypesFromId(c.variant, ctx, c.edges, c.typeRank, id))
  }

  /**
   * `getType`: the `@type` of the object (DigitalTwin: a string gives one
   * name, an array the names of its elements, any other value is ignored;
   * PnP: the friendly string of whatever it is); without one, the only
   * candidate type, or none when there is not exactly one.
   */
  function GetType(c: Checker, ctx: Context, v: Value, key: string, fsPath: string): (r: TypeOf)
    requires c.Ranked() && v.ObjectValue? && IsPropertyList(v.properties)
    ensures c.variant == PnP ==> !r.TypeList?
    ensures GetPropertyValue(v, "@type").None? ==> !r.TypeList?
  {
    var fallback :=
      match CandidateTypes(c, ctx, key, fsPath)
      case Some(types) => if |types| == 1 then OneType(types[0]) else NoType
      case None => NoType;
    match GetPropertyValue(v, "@type")
    case Some(t) =>
      if c.variant == PnP then OneType(FriendlyString(t))
      else if t.StringValue? then OneType(t.str)
      else if t.ArrayValue? then TypeList(FriendlyStrings(t.elements))
      else fallback
    case None => fallback
  }

  /**
   * `getInvalidTypeIssues` (DigitalTwin) and `getInvalidTypeIssue` (PnP):
   * when the candidate types are known, an `@type` naming another type is
   * reported at the `@type` value (DigitalTwin: an empty name too; PnP: only
   * a non-empty one), and each bad or repeated entry of an `@type` array at
   * that entry; None stands for null, nothing to report.
   */
  function InvalidTypeIssues(c: Checker, ctx: Context, v: Value, key: string, fsPath: string): (r: Option<seq<Issue>>)
    requires c.Ranked() && v.ObjectValue? && IsPropertyList(v.properties)
    ensures r.Some? ==> r.value != []
    ensures c.variant == PnP && r.Some? ==> |r.value| == 1
  {
    match CandidateTypes(c, ctx, key, fsPath)
    case None => None
    case Some(types) =>
      match GetPropertyValue(v, "@type")
      case None => None
      case Some(t) =>
        if c.variant == PnP then
          var name := FriendlyString(t);
          if name != "" && name !in types then Some([InvalidTypeIssue(t.span, types)]) else None
        else if t.StringValue? then
          if t.str !in types then Some([InvalidTypeIssue(t.span, types)]) else None
        else if t.ArrayValue? then
          var issues := TypeEntryIssues(FriendlyStrings(t.elements), Spans(t.elements), types);
          if issues != [] then Some(issues) else None
        else None
  }

  /**
   * The type check is the one `getType` calls for: an issue is reported
   * exactly when the object's type is a single name outside the candidates
   * (non-empty, for PnP) or a list with a bad or a repeated entry.
   */
  lemma InvalidTypeIssuesSpec(c: Checker, ctx: Context, v: Value, key: string, fsPath: string)
    requires c.Ranked() && v.ObjectValue? && IsPropertyList(v.properties)
    requires CandidateTypes(c, ctx, key, fsPath).Some?
    ensures var types := CandidateTypes(c, ctx, key, fsPath).value;
      InvalidTypeIssues(c, ctx, v, key, fsPath).Some? <==>
      match GetType(c, ctx, v, key, fsPath)
      case NoType => false
      case OneType(name) => (c.variant == DigitalTwin || name != "") && name !in types
      case TypeList(names) =>
        (exists i :: 0 <= i < |names| && names[i] !in types) ||
        (exists i, j :: 0 <= i < j < |names| && names[i] == names[j])
  {
    match GetPropertyValue(v, "@type")
    case None =>
    case Some(t) =>
      if c.variant == DigitalTwin && t.ArrayValue? {
        TypeEntryIssuesNone(FriendlyStrings(t.elements), Spans(t.elements), CandidateTypes(c, ctx, key, fsPath).value);
      }
  }

  // ----- the walk over the document ---------------------------------------------------

  /** The `@context` value a document of the context must carry. */
  function ContextUri(c: Checker, ctx: Context): string
  {
    if ctx == c.interfaceCtx then "http://azureiot.com/v0/contexts/Interface.json"
    else if c.variant == DigitalTwin then "http://azureiot.com/v0/contexts/CapabilityModel.json"
    else "http://azureiot.com/v0/contexts/Template.json"
  }

  /** The values a string under `key` may take: the context's URI for `@context`, else the key's string values. */
  function AllowedValues(c: Checker, ctx: Context, key: string): seq<string>
    requires c.Ranked()
  {
    if key == "@context" then [ContextUri(c, ctx)]
    else StringValuesFromShortName(c.variant, ctx, c.edges, c.valueRank, key)
  }

  /**
   * `getStringIssues`: nothing at the top or for a key without values; a
   * key whose values include `XMLSchema#string` takes its pattern; else the
   * string must be one of the values (DigitalTwin `@context` ignoring case).
   */
  function StringIssues(c: Checker, ctx: Context, v: Value, key: string): (r: seq<Issue>)
    requires c.Ranked() && v.StringValue?
    ensures |r| <= 1
  {
    var values := if key == "" then [] else AllowedValues(c, ctx, key);
    if values == [] then []
    else if "XMLSchema#string" in values then StringPatternIssues(v, key)
    else if !ValidStringValue(v.str, values, c.variant == DigitalTwin && key == "@context") then
      [IssueAt(v.span, "Invalid value. Valid values:\n" + Join(values, "\n"))]
    else []
  }

  /** The `@context` of a document is checked against the URI of the context it is read in. */
  lemma ContextChecked(c: Checker, ctx: Context, v: Value)
    requires c.Ranked() && v.StringValue?
    ensures v.str == ContextUri(c, ctx) ==> StringIssues(c, ctx, v, "@context") == []
    ensures c.variant == PnP && v.str != ContextUri(c, ctx) ==>
      StringIssues(c, ctx, v, "@context") == [IssueAt(v.span, "Invalid value. Valid values:\n" + ContextUri(c, ctx))]
  {
    var values := [ContextUri(c, ctx)];
    assert |"XMLSchema#string"| < |ContextUri(c, ctx)|;
    assert "XMLSchema#string" !in values;
    CaseSensitiveIsMembership(v.str, values);
    CaseInsensitiveWidens(v.str, values);
    assert Join(values, "\n") == ContextUri(c, ctx);
  }

  /**
   * The context the properties of an object of type `t` are read in: for a
   * Digital Twin object of one type it is the context the meta-model parser
   * switches to for that type; a list of types or none keeps the context.
   */
  function ContextOf(c: Checker, ctx: Context, t: TypeOf): (r: Context)
    ensures c.variant == DigitalTwin && t.OneType? ==> r == TypeContext(c.variant, ctx, c.interfaceCtx, c.modelCtx, t.name)
    ensures !t.OneType? ==> r == ctx
    ensures r == ctx || r == c.interfaceCtx || r == c.modelCtx
  {
    if t == OneType("Interface") then c.interfaceCtx
    else if t == OneType(ModelType(c.variant)) then c.modelCtx
    else ctx
  }

  /** The names an object's type stands for. */
  function TypeNames(t: TypeOf): seq<string>
  {
    match t
    case NoType => []
    case OneType(name) => [name]
    case TypeList(names) => names
  }

  /** The missing-required-properties issues of an object for each of its types. */
  function RequiredIssues(v: Value, types: seq<string>): seq<Issue>
    requires v.ObjectValue? && IsPropertyList(v.properties)
  {
    ConcatMap(types, t requires v.ObjectValue? && IsPropertyList(v.properties) =>
      MissingRequiredIssues(v, RequiredPropertiesFromType(t)))
  }

  /**
   * `getJsonValueIssues`: objects are checked as objects; arrays element by
   * element under the same key, then for repeated element names; strings
   * against their allowed values; other values draw nothing.
   */
  function ValueIssues(c: Checker, ctx: Context, v: Value, key: string, fsPath: string): (r: seq<Issue>)
    requires c.Ranked() && Nested(v)
    ensures AllIn(r, v.span)
    decreases v, 2
  {
    match v
    case ObjectValue(_, _) => ObjectIssues(c, ctx, v, key, fsPath)
    case ArrayValue(_, elements) =>
      NameIssuesIn(v, |elements|);
      assert elements[..|elements|] == elements;
      ElementIssues(c, ctx, v, key, fsPath, |elements|) + NameIssues(elements)
    case StringValue(_, _) =>
      StringIssuesIn(c, ctx, v, key);
      StringIssues(c, ctx, v, key)
    case _ => []
  }

  /**
   * `getObjectIssues`: an invalid type is reported alone; an object without
   * a type draws `@type is missing` alone; otherwise the missing required
   * properties of each type, the unexpected properties, and the issues of
   * each property value under its name, read in the context the type
   * switches to.
   */
  function ObjectIssues(c: Checker, ctx: Context, v: Value, key: string, fsPath: string): (r: seq<Issue>)
    requires c.Ranked() && v.ObjectValue? && Nested(v)
    ensures AllIn(r, v.span)
    decreases v, 1
  {
    InvalidTypeIssuesIn(c, ctx, v, key, fsPath);
    match InvalidTypeIssues(c, ctx, v, key, fsPath)
    case Some(issues) => issues
    case None =>
      var t := GetType(c, ctx, v, key, fsPath);
      if t.NoType? || t == OneType("") then [IssueAt(v.span, "@type is missing")]
      else
        var inner := ContextOf(c, ctx, t);
        var types := TypeNames(t);
        var allowed := AllowedOf(c.variant, inner, c.interfaceCtx, c.modelCtx, c.edges, c.superRank, c.valueRank, types);
        RequiredIssuesIn(v, types);
        UnexpectedIssuesIn(v, allowed);
        RequiredIssues(v, types) +
        UnexpectedIssues(v, allowed, |PropertyNames(v)|) +
        PropertyIssues(c, inner, v, fsPath, |PropertyNames(v)|)
  }

  /** The issues of the values of the first `n` property names of an object, each under its name. */
  function PropertyIssues(c: Checker, ctx: Context, v: Value, fsPath: string, n: nat): (r: seq<Issue>)
    requires c.Ranked() && v.ObjectValue? && Nested(v) && n <= |PropertyNames(v)|
    ensures AllIn(r, v.span)
    decreases v, 0, n
  {
    if n == 0 then []
    else
      var name := PropertyNames(v)[n - 1];
      var k := PropertyIndex(v, name);
      NestedProperty(v, k);
      PropertyIssues(c, ctx, v, fsPath, n - 1) + ValueIssues(c, ctx, v.properties[k].value, name, fsPath)
  }

  /** `getArrayIssues`: the issues of the first `n` elements, each under the array's key. */
  function ElementIssues(c: Checker, ctx: Context, v: Value, key: string, fsPath: string, n: nat): (r: seq<Issue>)
    requires c.Ranked() && v.ArrayValue? && Nested(v) && n <= |v.elements|
    ensures AllIn(r, v.span)
    decreases v, 0, n
  {
    if n == 0 then []
    else
      assert v.elements[n - 1] in v.elements;
      ElementIssues(c, ctx, v, key, fsPath, n - 1) + ValueIssues(c, ctx, v.elements[n - 1], key, fsPath)
  }

  /**
   * `getIssues`: nothing when the text parsed to no value; otherwise the
   * issues of the document's value, then its value-kind issues, all of them
   * inside the value.
   */
  function GetIssues(c: Checker, ctx: Context, json: Option<Value>, fsPath: string): (r: seq<Issue>)
    requires c.Ranked() && (json.Some? ==> Nested(json.value))
    ensures json.None? ==> r == []
    ensures json.Some? ==> AllIn(r, json.value.span)
  {
    match json
    case None => []
    case Some(v) => ValueIssues(c, ctx, v, "", fsPath) + TypeIssues(c, ctx, v, "", false)
  }

  /** A document whose value is not an object draws exactly one issue: an object was expected. */
  lemma NonObjectDocument(c: Checker, ctx: Context, v: Value, fsPath: string)
    requires c.Ranked() && Nested(v) && !v.ObjectValue? && !v.ArrayValue? && !v.StringValue?
    ensures GetIssues(c, ctx, Some(v), fsPath) ==
      [IssueAt(v.span, "Unexpected value. Expect " + (if c.variant == DigitalTwin then "object" else "Object") + ".")]
  {
  }

  /**
   * An object whose type cannot be told draws the single issue `@type is
   * missing`: it has no `@type` and its key does not stand for exactly one
   * type.
   */
  lemma UntypedObjectMissingType(c: Checker, ctx: Context, v: Value, key: string, fsPath: string)
    requires c.Ranked() && v.ObjectValue? && Nested(v)
    requires !HasProperty(v, "@type")
    requires CandidateTypes(c, ctx, key, fsPath).None? || |CandidateTypes(c, ctx, key, fsPath).value| != 1
    ensures ObjectIssues(c, ctx, v, key, fsPath) == [IssueAt(v.span, "@type is missing")]
  {
  }

  // ----- where issues are reported ---------------------------------------------------

  /** An issue is about a stretch of text inside the span. */
  predicate IssueIn(issue: Issue, span: Language.Span)
  {
    span.startIndex <= issue.startIndex <= issue.endIndex <= span.AfterEndIndex()
  }

  predicate AllIn(issues: seq<Issue>, span: Language.Span)
  {
    forall issue <- issues :: IssueIn(issue, span)
  }

  /** The value a property lookup finds lies inside the object. */
  lemma PropertyValueIn(obj: Value, name: string)
    requires obj.ObjectValue? && Nested(obj) && GetPropertyValue(obj, name).Some?
    ensures Nested(GetPropertyValue(obj, name).value)
    ensures Within(GetPropertyValue(obj, name).value.span, obj.span)
  {
    GetPropertyValueLast(obj, name);
    var i :| 0 <= i < |obj.properties| && GetPropertyValue(obj, name).value == obj.properties[i].value;
    NestedProperty(obj, i);
  }

  /** Each issue on an `@type` entry is about one of the entries' spans. */
  lemma {:induction false} TypeEntryIssuesAt(names: seq<string>, spans: seq<Language.Span>, types: seq<string>)
    requires |names| == |spans|
    ensures forall issue <- TypeEntryIssues(names, spans, types) ::
      (exists k :: 0 <= k < |spans| && issue.startIndex == spans[k].startIndex && issue.endIndex == spans[k].EndIndex())
  {
    if names != [] {
      var n := |names| - 1;
      TypeEntryIssuesAt(names[..n], spans[..n], types);
      forall issue <- TypeEntryIssues(names, spans, types)
        ensures exists k :: 0 <= k < |spans| && issue.startIndex == spans[k].startIndex && issue.endIndex == spans[k].EndIndex()
      {
        if issue in TypeEntryIssues(names[..n], spans[..n], types) {
          var k :| 0 <= k < n && issue.startIndex == spans[..n][k].startIndex && issue.endIndex == spans[..n][k].EndIndex();
          assert spans[..n][k] == spans[k];
        } else {
          assert issue.startIndex == spans[n].startIndex && issue.endIndex == spans[n].EndIndex();
        }
      }
    }
  }

  /** The type issues lie inside the object. */
  lemma InvalidTypeIssuesIn(c: Checker, ctx: Context, v: Value, key: string, fsPath: string)
    requires c.Ranked() && v.ObjectValue? && Nested(v)
    ensures InvalidTypeIssues(c, ctx, v, key, fsPath).Some? ==> AllIn(InvalidTypeIssues(c, ctx, v, key, fsPath).value, v.span)
  {
    if InvalidTypeIssues(c, ctx, v, key, fsPath).Some? {
      PropertyValueIn(v, "@type");
      var t := GetPropertyValue(v, "@type").value;
      if c.variant == DigitalTwin && t.ArrayValue? {
        var types := CandidateTypes(c, ctx, key, fsPath).value;
        TypeEntryIssuesAt(FriendlyStrings(t.elements), Spans(t.elements), types);
        forall issue <- TypeEntryIssues(FriendlyStrings(t.elements), Spans(t.elements), types)
          ensures IssueIn(issue, v.span)
        {
          var k :| 0 <= k < |t.elements| && issue.startIndex == Spans(t.elements)[k].startIndex && issue.endIndex == Spans(t.elements)[k].EndIndex();
          assert t.elements[k] in t.elements;
        }
      }
    }
  }

  /** The missing-property and empty-list issues lie inside the object. */
  /** The issues about one type's required properties lie inside the object. */
  lemma MissingRequiredIssuesIn(v: Value, required: seq<string>)
    requires v.ObjectValue? && Nested(v)
    ensures AllIn(MissingRequiredIssues(v, required), v.span)
  {
    var missing := MissingProperties(v, required);
    var head := if missing != [] then [MissingIssue(v, missing)] else [];
    assert AllIn(head, v.span);
    EmptyArrayIssuesSpec(v, required, PropertyNames(v));
    forall issue <- EmptyArrayIssues(v, required, PropertyNames(v))
      ensures IssueIn(issue, v.span)
    {
      var n :| n in PropertyNames(v) && EmptyRequired(v, required, n) && issue == EmptyArrayIssue(n, GetPropertyValue(v, n).value);
      PropertyValueIn(v, n);
    }
  }

  lemma RequiredIssuesIn(v: Value, types: seq<string>)
    requires v.ObjectValue? && Nested(v)
    ensures AllIn(RequiredIssues(v, types), v.span)
  {
    var f := t requires v.ObjectValue? && IsPropertyList(v.properties) => MissingRequiredIssues(v, RequiredPropertiesFromType(t));
    forall issue <- RequiredIssues(v, types)
      ensures IssueIn(issue, v.span)
    {
      ConcatMapSpec(types, f, issue);
      var t :| t in types && issue in f(t);
      MissingRequiredIssuesIn(v, RequiredPropertiesFromType(t));
    }
  }

  /** The unexpected-property issues lie inside the object. */
  lemma UnexpectedIssuesIn(v: Value, allowed: seq<string>)
    requires v.ObjectValue? && Nested(v)
    ensures AllIn(UnexpectedIssues(v, allowed, |PropertyNames(v)|), v.span)
  {
    UnexpectedIssuesSpec(v, allowed, |PropertyNames(v)|);
    forall issue <- UnexpectedIssues(v, allowed, |PropertyNames(v)|)
      ensures IssueIn(issue, v.span)
    {
      var i :| 0 <= i < |v.properties| && NameOf(v.properties[i]) !in allowed &&
        issue == UnexpectedIssue(v.properties[i].name, NameOf(v.properties[i]));
      NestedProperty(v, i);
      assert Nested(v.properties[i].name);
    }
  }

  /** The repeated-name issues lie inside the array. */
  lemma {:induction false} NameIssuesIn(v: Value, n: nat)
    requires v.ArrayValue? && Nested(v) && n <= |v.elements|
    ensures AllIn(NameIssues(v.elements[..n]), v.span)
  {
    if n > 0 {
      var es := v.elements[..n];
      assert es[..n - 1] == v.elements[..n - 1];
      NameIssuesIn(v, n - 1);
      var e := es[n - 1];
      assert e in v.elements;
      if Repeats(es, n - 1) {
        PropertyValueIn(e, "name");
      }
    }
  }

  /** A string's issue lies over the string. */
  lemma StringIssuesIn(c: Checker, ctx: Context, v: Value, key: string)
    requires c.Ranked() && v.StringValue? && Nested(v)
    ensures AllIn(StringIssues(c, ctx, v, key), v.span)
  {
  }
}
