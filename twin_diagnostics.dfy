/**
 * The diagnostics of src/DigitalTwin/pnp/src/intelliSense/
 * digitalTwinDiagnosticProvider.ts: a DigitalTwin model, as a JSON tree, is
 * checked against the property and class nodes of the IntelliSense graph,
 * and every check that fails appends a problem (an offset, a length and a
 * message) to a shared list.
 *
 * The functions below say which problems each validator appends; the
 * validators themselves, further down, are methods that append to a
 * `ProblemList` and are proved to append exactly those.
 *
 * Several helpers the validators call are not defined in the source
 * (`DigitalTwinGraph.getClassType`, `getValidTypes` and `isObjectClass`,
 * the context regular expression and the table of language codes); they are
 * parameters here, gathered in `Helpers`, together with the regular
 * expression test of a string pattern.
 */
module TwinDiagnostics {
  import opened Wrappers
  import opened Strings
  import opened TwinGraph
  import opened IntelliSense
  import ObjectDiagnostics

  const LineFeed := "\n"
  const NameKey := "name"
  const TypeKey := "@type"
  const ContentsLabel := "contents"
  const DummyNodeId := "@dummy"
  const IntSchema := "http://www.w3.org/2001/XMLSchema#int"
  const BooleanSchema := "http://www.w3.org/2001/XMLSchema#boolean"

  const MissingTypeMessage := "@type is missing."
  const InvalidTypeMessage := "Invalid type. Valid types:"
  const UnexpectedPropertyMessage := "is unexpected."
  const MissingRequiredMessage := "Missing required properties:"
  const ShorterThanMinLengthMessage := "String is shorter than the minimum length of"
  const LongerThanMaxLengthMessage := "String is longer than the maximum length of"
  const NotMatchPatternMessage := "String does not match the pattern of"
  const NotObjectTypeMessage := "Object is not expected."
  const EmptyObjectMessage := "Object is empty."
  const EmptyStringMessage := "String is empty."
  const EmptyArrayMessage := "Array is empty."
  const TooFewItemsMessage := "Array has too few items. Minimum count is"
  const TooManyItemsMessage := "Array has too many items. Maximum count is"
  const DuplicateItemMessage := "has been assigned to another item."
  const InvalidEnumMessage := "Invalid value. Valid values:"
  const InvalidContextMessage := "Invalid context of DigitalTwin."
  const ConflictTypeMessage := "Conflict type:"
  const ValueNotStringMessage := "Value is not string."

  /** A diagnostic problem: where it starts, how long it is, and its message. */
  datatype Problem = Problem(offset: int, length: int, message: string)

  /** The helpers the source calls but does not define, and the regular expression test. */
  datatype Helpers = Helpers(classType: ClassNode -> string, validTypes: PropertyNode -> seq<string>,
                             isObjectClass: ClassNode -> bool, isContext: string -> bool,
                             languageCodes: set<string>, matches: (string, string) -> bool)

  /** What the validators read of the graph: its classes, its properties and the property node of `@id`. */
  datatype GraphView = GraphView(classes: map<string, ClassNode>, properties: map<string, PropertyNode>,
                                 idProperty: Option<PropertyNode>)

  /** An integer as a template string shows it. */
  function IntText(n: int): string
  {
    if n < 0 then "-" + NatToString(-n) else NatToString(n)
  }

  /** A message followed by a list, one per line. */
  function Lines(head: string, rest: seq<string>): string
  {
    Join([head] + rest, LineFeed)
  }

  /** `addProblem`: a problem at the node, of length 0 for a container and the node's length otherwise. */
  function MakeProblem(node: JsonNode, message: string, isContainer: bool): (r: Problem)
    ensures r.offset == node.offset && r.message == message
    ensures isContainer ==> r.length == 0
    ensures !isContainer ==> r.length == node.length
  {
    Problem(node.offset, if isContainer then 0 else node.length, message)
  }

  /** `addProblemOfInvalidType`: the valid types of the property, one per line. */
  function InvalidTypeProblem(h: Helpers, node: JsonNode, dt: PropertyNode): Problem
  {
    MakeProblem(node, Lines(InvalidTypeMessage, h.validTypes(dt)), false)
  }

  /** `addProblemOfUnexpectedProperty`, at the name node. */
  function UnexpectedProblem(name: JsonNode): Problem
  {
    MakeProblem(name, ValueText(name.value) + " " + UnexpectedPropertyMessage, false)
  }

  /** The string a node holds; the empty string for a node that holds none. */
  function StringOf(node: JsonNode): string
  {
    if node.value.StringValue? then node.value.s else ""
  }

  /** The classes of the property's range, in order. */
  function RangeClasses(classes: map<string, ClassNode>, dt: PropertyNode): seq<ClassNode>
  {
    ConcatMap(RangeOf(dt), (id: string) => if id in classes then [classes[id]] else [])
  }

  /** `findClassNode`: the first class whose type is `type_`. */
  function FindClass(h: Helpers, cs: seq<ClassNode>, type_: string): (r: Option<ClassNode>)
    ensures r.Some? <==> exists i :: 0 <= i < |cs| && h.classType(cs[i]) == type_
    ensures r.Some? ==> r.value in cs && h.classType(r.value) == type_
  {
    if cs == [] then None
    else if h.classType(cs[0]) == type_ then Some(cs[0])
    else
      var r := FindClass(h, cs[1..], type_);
      assert forall i :: 0 < i < |cs| ==> cs[i] == cs[1..][i - 1];
      r
  }

  /** A bound of a constraint that is set and not zero. */
  function Bound(b: Option<int>): Option<int>
  {
    if b.Some? && b.value != 0 then b else None
  }

  // ----- strings, enums, numbers, booleans ---------------------------------------------------

  /** The string meets the length bounds and the pattern of the constraint. */
  predicate StringChecksPass(h: Helpers, value: string, c: Constraint)
  {
    !(Bound(c.minLength).Some? && |value| < c.minLength.value) &&
    !(Bound(c.maxLength).Some? && |value| > c.maxLength.value) &&
    !(c.pattern.Some? && c.pattern.value != "" && !h.matches(c.pattern.value, value))
  }

  /**
   * `validateStringNode`: a property without the string class checks enums
   * instead; otherwise the string must not be empty, then must meet the
   * minimum and maximum length and the pattern, and only the first failing
   * check is reported.
   */
  function StringProblems(v: GraphView, h: Helpers, node: JsonNode, dt: PropertyNode): (r: seq<Problem>)
    ensures |r| <= 1
    ensures FindClass(h, RangeClasses(v.classes, dt), StringSchema).None? ==> r == EnumProblems(v, h, node, dt)
    ensures FindClass(h, RangeClasses(v.classes, dt), StringSchema).Some? ==>
      (r == [] <==> StringOf(node) != "" && (dt.constraint.None? || StringChecksPass(h, StringOf(node), dt.constraint.value)))
    ensures FindClass(h, RangeClasses(v.classes, dt), StringSchema).Some? && StringOf(node) == "" ==>
      r == [MakeProblem(node, EmptyStringMessage, false)]
  {
    if FindClass(h, RangeClasses(v.classes, dt), StringSchema).None? then EnumProblems(v, h, node, dt)
    else
      var value := StringOf(node);
      if value == "" then [MakeProblem(node, EmptyStringMessage, false)]
      else if dt.constraint.None? then []
      else
        var c := dt.constraint.value;
        if Bound(c.minLength).Some? && |value| < c.minLength.value then
          [MakeProblem(node, ShorterThanMinLengthMessage + " " + IntText(c.minLength.value) + ".", false)]
        else if Bound(c.maxLength).Some? && |value| > c.maxLength.value then
          [MakeProblem(node, LongerThanMaxLengthMessage + " " + IntText(c.maxLength.value) + ".", false)]
        else if c.pattern.Some? && c.pattern.value != "" && !h.matches(c.pattern.value, value) then
          [MakeProblem(node, NotMatchPatternMessage + " " + c.pattern.value + ".", false)]
        else []
  }

  /**
   * `validateEnumNode`: with no enums the type is invalid; otherwise a value
   * that is not one of them is reported with the list of valid values.
   */
  function EnumProblems(v: GraphView, h: Helpers, node: JsonNode, dt: PropertyNode): (r: seq<Problem>)
    ensures |r| <= 1
    ensures EnumsOf(v.classes, RangeOf(dt)) == [] ==> r == [InvalidTypeProblem(h, node, dt)]
    ensures EnumsOf(v.classes, RangeOf(dt)) != [] ==>
      (r == [] <==> node.value.StringValue? && node.value.s in EnumsOf(v.classes, RangeOf(dt)))
  {
    var enums := EnumsOf(v.classes, RangeOf(dt));
    if enums == [] then [InvalidTypeProblem(h, node, dt)]
    else if !(node.value.StringValue? && node.value.s in enums) then
      [MakeProblem(node, Lines(InvalidEnumMessage, enums), false)]
    else []
  }

  /** `validateNumberNode`: the property must allow integers and the number must be whole. */
  function NumberProblems(v: GraphView, h: Helpers, node: JsonNode, dt: PropertyNode): (r: seq<Problem>)
    ensures r == [] <==>
      FindClass(h, RangeClasses(v.classes, dt), IntSchema).Some? &&
      node.value.NumberValue? && ObjectDiagnostics.IsIntegral(node.value.text)
  {
    if FindClass(h, RangeClasses(v.classes, dt), IntSchema).None? ||
       !(node.value.NumberValue? && ObjectDiagnostics.IsIntegral(node.value.text))
    then [InvalidTypeProblem(h, node, dt)]
    else []
  }

  /** `validateBooleanNode`: the property must allow booleans. */
  function BooleanProblems(v: GraphView, h: Helpers, node: JsonNode, dt: PropertyNode): (r: seq<Problem>)
    ensures r == [] <==> FindClass(h, RangeClasses(v.classes, dt), BooleanSchema).Some?
  {
    if FindClass(h, RangeClasses(v.classes, dt), BooleanSchema).None? then [InvalidTypeProblem(h, node, dt)] else []
  }

  // ----- object types -------------------------------------------------------------------------

  /** The `i`th child is a property named `key`. */
  predicate KeyedAt(children: seq<JsonNode>, i: int, key: string)
  {
    0 <= i < |children| && ParseProperty(children[i]).Some? &&
    ParseProperty(children[i]).value.name.value == StringValue(key)
  }

  /** `findNodeAtLocation(node, [key])` on an object: the value of its first property named `key`. */
  function FindValueAt(node: JsonNode, key: string): (r: Option<JsonNode>)
    ensures r.Some? <==> node.kind == ObjectKind && exists i :: KeyedAt(node.children, i, key)
    ensures r.Some? ==> exists i :: KeyedAt(node.children, i, key) && r.value == node.children[i].children[1]
  {
    if node.kind != ObjectKind then None else FindValueIn(node.children, key)
  }

  function FindValueIn(children: seq<JsonNode>, key: string): (r: Option<JsonNode>)
    ensures r.Some? <==> exists i :: KeyedAt(children, i, key)
    ensures r.Some? ==> exists i :: KeyedAt(children, i, key) && r.value == children[i].children[1]
  {
    if children == [] then None
    else if KeyedAt(children, 0, key) then Some(children[0].children[1])
    else
      var r := FindValueIn(children[1..], key);
      assert (exists i :: KeyedAt(children, i, key)) ==> r.Some? by {
        if exists i :: KeyedAt(children, i, key) {
          var i :| KeyedAt(children, i, key);
          assert children[1..][i - 1] == children[i];
          assert KeyedAt(children[1..], i - 1, key);
        }
      }
      assert r.Some? ==> exists i :: KeyedAt(children, i, key) && r.value == children[i].children[1] by {
        if r.Some? {
          var i :| KeyedAt(children[1..], i, key) && r.value == children[1..][i].children[1];
          assert children[1..][i] == children[i + 1];
          assert KeyedAt(children, i + 1, key);
        }
      }
      r
  }

  /** The ids of a list of classes, as the range of the placeholder property `getValidObjectType` builds. */
  function Ids(cs: seq<ClassNode>): (r: seq<string>)
    ensures |r| == |cs| && forall i :: 0 <= i < |cs| ==> r[i] == cs[i].id
  {
    if cs == [] then [] else [cs[0].id] + Ids(cs[1..])
  }

  /** The placeholder property node ranging over the candidate classes. */
  function DummyNode(cs: seq<ClassNode>): PropertyNode
  {
    PropertyNode(DummyNodeId, "", false, None, Some(Ids(cs)), None)
  }

  /** A label as a template string shows it, an unset one being `undefined`. */
  function LabelText(c: ClassNode): string
  {
    if c.labelText == "" then "undefined" else c.labelText
  }

  /** Where the scan of a semantic type array stands: no class yet, one class, or two (a conflict). */
  datatype TypeScan = NoClass | OneClass(c: ClassNode) | Conflict(first: ClassNode, second: ClassNode)

  /** The scan after the elements: each string naming a candidate is taken; a second one is a conflict and ends the scan. */
  function ScanTypes(h: Helpers, cs: seq<ClassNode>, elements: seq<JsonNode>): TypeScan
  {
    if elements == [] then NoClass
    else
      var before := ScanTypes(h, cs, elements[..|elements| - 1]);
      var e := elements[|elements| - 1];
      if before.Conflict? || e.kind != StringKind then before
      else
        match FindClass(h, cs, ValueText(e.value))
        case None => before
        case Some(current) => if before.OneClass? then Conflict(before.c, current) else OneClass(current)
  }

  /**
   * `getValidObjectType`: the candidate class named by a string `@type`, or
   * by one of the two strings of a semantic type array (for `contents`
   * only); two candidates named is a conflict, and none is an invalid type.
   * The class found, if any, and the problems appended.
   */
  function ValidObjectType(h: Helpers, typeNode: JsonNode, dt: PropertyNode, cs: seq<ClassNode>): (r: (Option<ClassNode>, seq<Problem>))
    ensures r.0.Some? <==> r.1 == []
    ensures r.0.Some? ==> r.0.value in cs
    ensures |r.1| <= 1
  {
    if typeNode.kind == StringKind then
      var found := FindClass(h, cs, ValueText(typeNode.value));
      if found.None? then (None, [InvalidTypeProblem(h, typeNode, DummyNode(cs))]) else (found, [])
    else if typeNode.kind == ArrayKind && dt.labelText == ContentsLabel && |typeNode.children| == 2 then
      match ScanTypes(h, cs, typeNode.children)
      case Conflict(first, second) =>
        (None, [MakeProblem(typeNode, ConflictTypeMessage + " " + LabelText(first) + " and " + LabelText(second), false)])
      case OneClass(c) => ScanFindsCandidates(h, cs, typeNode.children); (Some(c), [])
      case NoClass => (None, [InvalidTypeProblem(h, typeNode, DummyNode(cs))])
    else (None, [InvalidTypeProblem(h, typeNode, DummyNode(cs))])
  }

  lemma {:induction false} ScanFindsCandidates(h: Helpers, cs: seq<ClassNode>, elements: seq<JsonNode>)
    ensures ScanTypes(h, cs, elements).OneClass? ==> ScanTypes(h, cs, elements).c in cs
  {
    if elements != [] {
      ScanFindsCandidates(h, cs, elements[..|elements| - 1]);
    }
  }

  // ----- properties of objects --------------------------------------------------------------

  /** `expectedProperties`: the labelled properties of a class by label, a later one replacing an earlier. */
  function ExpectedProperties(properties: map<string, PropertyNode>, ids: seq<string>): map<string, PropertyNode>
  {
    if ids == [] then map[]
    else
      var before := ExpectedProperties(properties, ids[..|ids| - 1]);
      var id := ids[|ids| - 1];
      if id in properties && properties[id].labelText != "" then before[properties[id].labelText := properties[id]] else before
  }

  /** `exist`: the names of the properties among the first `n` children. */
  function PresentNames(children: seq<JsonNode>): set<string>
  {
    if children == [] then {}
    else
      var pair := ParseProperty(children[|children| - 1]);
      PresentNames(children[..|children| - 1]) + (if pair.Some? then {ValueText(pair.value.name.value)} else {})
  }

  /** `isDigitalTwinContext`: a string node whose value the context expression accepts. */
  predicate IsDigitalTwinContext(h: Helpers, node: JsonNode)
  {
    node.kind == StringKind && h.isContext(ValueText(node.value))
  }

  /** The class requires the property. */
  predicate Requires(c: ClassNode, name: string)
  {
    c.constraint.Some? && c.constraint.value.required.Some? && name in c.constraint.value.required.value
  }

  /** The required properties missing from the object, `@context` excepted under a `schema` property. */
  function MissingRequired(required: seq<string>, present: set<string>, exemptContext: bool): (r: seq<string>)
    ensures forall p :: p in r <==> p in required && p !in present && !(p == ContextKey && exemptContext)
  {
    if required == [] then []
    else
      var p := required[|required| - 1];
      MissingRequired(required[..|required| - 1], present, exemptContext) +
        (if p !in present && !(p == ContextKey && exemptContext) then [p] else [])
  }

  /** The missing required properties are listed in one problem spanning none of the object. */
  function RequiredProblems(node: JsonNode, c: ClassNode, dt: PropertyNode): (r: seq<Problem>)
    ensures |r| <= 1
  {
    if c.constraint.None? || c.constraint.value.required.None? then []
    else
      var missing := MissingRequired(c.constraint.value.required.value, PresentNames(node.children), dt.labelText == SchemaLabel);
      if missing == [] then [] else [MakeProblem(node, Lines(MissingRequiredMessage, missing), true)]
  }

  // ----- the walk ---------------------------------------------------------------------------

  /** `validateNode`: dispatch on the node's type; null and property nodes are not checked. */
  function NodeProblems(v: GraphView, h: Helpers, node: JsonNode, dt: PropertyNode): seq<Problem>
    decreases node, 3
  {
    match node.kind
    case ObjectKind => ObjectProblems(v, h, node, dt)
    case ArrayKind => ArrayProblems(v, h, node, dt)
    case StringKind => StringProblems(v, h, node, dt)
    case NumberKind => NumberProblems(v, h, node, dt)
    case BooleanKind => BooleanProblems(v, h, node, dt)
    case _ => []
  }

  /**
   * `validateObjectNode`: the property must allow objects and the object
   * must not be empty; without `@type` it must have a single candidate
   * class. The class found is then checked: as a language map, or property
   * by property followed by the missing required properties.
   */
  function ObjectProblems(v: GraphView, h: Helpers, node: JsonNode, dt: PropertyNode): seq<Problem>
    decreases node, 2
  {
    var cs := ObjectClassesOf(v.classes, h.isObjectClass, RangeOf(dt));
    if cs == [] then [MakeProblem(node, NotObjectTypeMessage, false)]
    else if node.children == [] then [MakeProblem(node, EmptyObjectMessage, true)]
    else
      var typeNode := FindValueAt(node, TypeKey);
      if typeNode.None? && |cs| != 1 then [MakeProblem(node, MissingTypeMessage, true)]
      else TypedObjectProblems(v, h, node, dt, cs, typeNode)
  }

  /** The problems of an object from its `@type` on: the type's, then those of the class it names. */
  function TypedObjectProblems(v: GraphView, h: Helpers, node: JsonNode, dt: PropertyNode, cs: seq<ClassNode>,
                               typeNode: Option<JsonNode>): seq<Problem>
    requires cs != []
    decreases node, 1, 2
  {
    var (classNode, typeProblems) := if typeNode.Some? then ValidObjectType(h, typeNode.value, dt, cs) else (Some(cs[0]), []);
    typeProblems + if classNode.None? then [] else ClassProblems(v, h, node, dt, classNode.value)
  }

  /** The problems of an object once its class is known: as a language map, or property by property and then the required ones. */
  function ClassProblems(v: GraphView, h: Helpers, node: JsonNode, dt: PropertyNode, c: ClassNode): seq<Problem>
    decreases node, 1, 1
  {
    if IsLanguageNode(c) then LanguageProblems(v, h, node, dt, |node.children|)
    else PropertiesProblems(v, h, node, c, |node.children|) + RequiredProblems(node, c, dt)
  }

  /** The problems of one property of an object of class `c` (`validateProperties`, one child). */
  function PropertyProblems(v: GraphView, h: Helpers, node: JsonNode, c: ClassNode, i: nat): seq<Problem>
    requires i < |node.children|
    decreases node, 0, i
  {
    var pair := ParseProperty(node.children[i]);
    if pair.None? then []
    else
      var name := ValueText(pair.value.name.value);
      if name == IdKey then
        if v.idProperty.Some? then NodeProblems(v, h, pair.value.value, v.idProperty.value) else []
      else if name == ContextKey then
        if Requires(c, ContextKey) then
          if IsDigitalTwinContext(h, pair.value.value) then [] else [MakeProblem(pair.value.value, InvalidContextMessage, false)]
        else [UnexpectedProblem(pair.value.name)]
      else if name == TypeKey then []
      else
        var expected := ExpectedProperties(v.properties, c.properties);
        if name in expected then NodeProblems(v, h, pair.value.value, expected[name]) else [UnexpectedProblem(pair.value.name)]
  }

  /** `validateProperties` over the first `n` children. */
  function PropertiesProblems(v: GraphView, h: Helpers, node: JsonNode, c: ClassNode, n: nat): seq<Problem>
    requires n <= |node.children|
    decreases node, 0, n + 1
  {
    if n == 0 then [] else PropertiesProblems(v, h, node, c, n - 1) + PropertyProblems(v, h, node, c, n - 1)
  }

  /** The problems of one entry of a language map (`validateLanguageNode`, one child). */
  function LanguageEntryProblems(v: GraphView, h: Helpers, node: JsonNode, dt: PropertyNode, i: nat): seq<Problem>
    requires i < |node.children|
    decreases node, 0, i
  {
    var pair := ParseProperty(node.children[i]);
    if pair.None? then []
    else if ValueText(pair.value.name.value) !in h.languageCodes then [UnexpectedProblem(pair.value.name)]
    else if !pair.value.value.value.StringValue? then [MakeProblem(pair.value.value, ValueNotStringMessage, false)]
    else StringProblems(v, h, pair.value.value, dt)
  }

  /** `validateLanguageNode` over the first `n` children: language codes as keys and strings as values. */
  function LanguageProblems(v: GraphView, h: Helpers, node: JsonNode, dt: PropertyNode, n: nat): seq<Problem>
    requires n <= |node.children|
    decreases node, 0, n + 1
  {
    if n == 0 then [] else LanguageProblems(v, h, node, dt, n - 1) + LanguageEntryProblems(v, h, node, dt, n - 1)
  }

  /** `getNamePropertyPair`: the first property named `name` of an object. */
  function NamePair(node: JsonNode): (r: Option<PropertyPair>)
    ensures r.Some? ==> r.value.name.value == StringValue(NameKey)
  {
    if node.kind != ObjectKind then None else NamePairIn(node.children)
  }

  function NamePairIn(children: seq<JsonNode>): (r: Option<PropertyPair>)
    ensures r.Some? ==> r.value.name.value == StringValue(NameKey)
  {
    if children == [] then None
    else
      var pair := ParseProperty(children[0]);
      if pair.Some? && pair.value.name.value == StringValue(NameKey) then pair else NamePairIn(children[1..])
  }

  /** The `name` values of the elements. */
  function NamesOf(elements: seq<JsonNode>): set<NodeValue>
  {
    if elements == [] then {}
    else
      var pair := NamePair(elements[|elements| - 1]);
      NamesOf(elements[..|elements| - 1]) + (if pair.Some? then {pair.value.value.value} else {})
  }

  /** The duplicate-name problem of an element, given the names met before it. */
  function DuplicateProblems(element: JsonNode, seen: set<NodeValue>): (r: seq<Problem>)
    ensures r != [] <==> NamePair(element).Some? && NamePair(element).value.value.value in seen
  {
    match NamePair(element)
    case None => []
    case Some(pair) =>
      if pair.value.value in seen then
        [MakeProblem(pair.value, ValueText(pair.value.value) + " " + DuplicateItemMessage, false)]
      else []
  }

  /** The array has fewer items than a set, non-zero `minItems`. */
  predicate TooFewItems(node: JsonNode, dt: PropertyNode)
  {
    dt.constraint.Some? && Bound(dt.constraint.value.minItems).Some? && |node.children| < dt.constraint.value.minItems.value
  }

  /** The array has more items than a set, non-zero `maxItems`. */
  predicate TooManyItems(node: JsonNode, dt: PropertyNode)
  {
    dt.constraint.Some? && Bound(dt.constraint.value.maxItems).Some? && |node.children| > dt.constraint.value.maxItems.value
  }

  /**
   * The item count problems: one for too few items, then one for too many,
   * each naming the bound and spanning none of the array.
   */
  function ItemCountProblems(node: JsonNode, dt: PropertyNode): (r: seq<Problem>)
    ensures |r| == (if TooFewItems(node, dt) then 1 else 0) + (if TooManyItems(node, dt) then 1 else 0)
    ensures TooFewItems(node, dt) ==>
      r[0].message == TooFewItemsMessage + " " + IntText(dt.constraint.value.minItems.value) + "."
    ensures TooManyItems(node, dt) ==>
      r[|r| - 1].message == TooManyItemsMessage + " " + IntText(dt.constraint.value.maxItems.value) + "."
    ensures forall p :: p in r ==> p.offset == node.offset && p.length == 0
  {
    if dt.constraint.None? then []
    else
      var c := dt.constraint.value;
      (if Bound(c.minItems).Some? && |node.children| < c.minItems.value
       then [MakeProblem(node, TooFewItemsMessage + " " + IntText(c.minItems.value) + ".", true)] else []) +
      (if Bound(c.maxItems).Some? && |node.children| > c.maxItems.value
       then [MakeProblem(node, TooManyItemsMessage + " " + IntText(c.maxItems.value) + ".", true)] else [])
  }

  /** The elements' problems over the first `n`: each element's duplicate name, then the element itself. */
  function ElementsProblems(v: GraphView, h: Helpers, node: JsonNode, dt: PropertyNode, n: nat): seq<Problem>
    requires n <= |node.children|
    decreases node, 1, n
  {
    if n == 0 then []
    else
      ElementsProblems(v, h, node, dt, n - 1) +
      DuplicateProblems(node.children[n - 1], NamesOf(node.children[..n - 1])) +
      NodeProblems(v, h, node.children[n - 1], dt)
  }

  /**
   * `validateArrayNode`: the property must be an array and the array must
   * not be empty, each alone ending the check; then the item counts, then
   * each element in order.
   */
  function ArrayProblems(v: GraphView, h: Helpers, node: JsonNode, dt: PropertyNode): (r: seq<Problem>)
    ensures !dt.isArray ==> r == [InvalidTypeProblem(h, node, dt)]
    ensures dt.isArray && node.children == [] ==> r == [MakeProblem(node, EmptyArrayMessage, true)]
    decreases node, 2
  {
    if !dt.isArray then [InvalidTypeProblem(h, node, dt)]
    else if node.children == [] then [MakeProblem(node, EmptyArrayMessage, true)]
    else ItemCountProblems(node, dt) + ElementsProblems(v, h, node, dt, |node.children|)
  }

  // ----- properties of the checks -------------------------------------------------------------

  /**
   * The string checks run in order (empty, minimum length, maximum length,
   * pattern) and only the first that fails is reported.
   */
  lemma StringChecksInOrder(v: GraphView, h: Helpers, node: JsonNode, dt: PropertyNode)
    requires FindClass(h, RangeClasses(v.classes, dt), StringSchema).Some?
    requires StringOf(node) != "" && dt.constraint.Some?
    ensures var c := dt.constraint.value; var value := StringOf(node);
      (Bound(c.minLength).Some? && |value| < c.minLength.value ==>
        StringProblems(v, h, node, dt) == [Problem(node.offset, node.length,
          ShorterThanMinLengthMessage + " " + IntText(c.minLength.value) + ".")]) &&
      (!(Bound(c.minLength).Some? && |value| < c.minLength.value) && Bound(c.maxLength).Some? && |value| > c.maxLength.value ==>
        StringProblems(v, h, node, dt) == [Problem(node.offset, node.length,
          LongerThanMaxLengthMessage + " " + IntText(c.maxLength.value) + ".")]) &&
      (!(Bound(c.minLength).Some? && |value| < c.minLength.value) && !(Bound(c.maxLength).Some? && |value| > c.maxLength.value) &&
       c.pattern.Some? && c.pattern.value != "" && !h.matches(c.pattern.value, value) ==>
        StringProblems(v, h, node, dt) == [Problem(node.offset, node.length, NotMatchPatternMessage + " " + c.pattern.value + ".")])
  {
  }

  /** A `name` value is among those of the elements exactly when some element carries it. */
  lemma {:induction false} NamesOfMembership(elements: seq<JsonNode>, x: NodeValue)
    ensures x in NamesOf(elements) <==>
      exists k :: 0 <= k < |elements| && NamePair(elements[k]).Some? && NamePair(elements[k]).value.value.value == x
  {
    if elements != [] {
      var init := elements[..|elements| - 1];
      NamesOfMembership(init, x);
      assert forall k :: 0 <= k < |init| ==> init[k] == elements[k];
    }
  }

  /**
   * An element's name is reported as a duplicate exactly when an earlier
   * element of the array has the same name; so the first element holding a
   * name is never reported.
   */
  lemma DuplicateExactlyWhenRepeated(node: JsonNode, i: nat)
    requires i < |node.children|
    ensures DuplicateProblems(node.children[i], NamesOf(node.children[..i])) != [] <==>
      NamePair(node.children[i]).Some? &&
      exists k :: 0 <= k < i && NamePair(node.children[k]).Some? &&
        NamePair(node.children[k]).value.value.value == NamePair(node.children[i]).value.value.value
  {
    if NamePair(node.children[i]).Some? {
      var prefix := node.children[..i];
      NamesOfMembership(prefix, NamePair(node.children[i]).value.value.value);
      assert forall k :: 0 <= k < i ==> prefix[k] == node.children[k];
    }
  }

  /** A property name is present exactly when some child is a property of that name. */
  lemma {:induction false} PresentNamesMembership(children: seq<JsonNode>, name: string)
    ensures name in PresentNames(children) <==>
      exists k :: 0 <= k < |children| && ParseProperty(children[k]).Some? && ValueText(ParseProperty(children[k]).value.name.value) == name
  {
    if children != [] {
      var init := children[..|children| - 1];
      PresentNamesMembership(init, name);
      assert forall k :: 0 <= k < |init| ==> init[k] == children[k];
    }
  }

  /**
   * The required properties problem lists exactly the required properties
   * no child of the object names, leaving out `@context` under a `schema`
   * property, in one problem spanning none of the object.
   */
  lemma RequiredListsMissing(node: JsonNode, c: ClassNode, dt: PropertyNode, name: string)
    requires c.constraint.Some? && c.constraint.value.required.Some?
    ensures var missing := MissingRequired(c.constraint.value.required.value, PresentNames(node.children), dt.labelText == SchemaLabel);
      (RequiredProblems(node, c, dt) == [] <==> missing == []) &&
      (missing != [] ==> RequiredProblems(node, c, dt) == [Problem(node.offset, 0, Lines(MissingRequiredMessage, missing))]) &&
      (name in missing <==>
        name in c.constraint.value.required.value && !(name == ContextKey && dt.labelText == SchemaLabel) &&
        forall k :: 0 <= k < |node.children| && ParseProperty(node.children[k]).Some? ==>
          ValueText(ParseProperty(node.children[k]).value.name.value) != name)
  {
    PresentNamesMembership(node.children, name);
  }

  /**
   * Without `@type`, an object whose property allows more than one class is
   * reported as missing its type, and nothing else is checked.
   */
  lemma MissingTypeWhenAmbiguous(v: GraphView, h: Helpers, node: JsonNode, dt: PropertyNode)
    requires node.kind == ObjectKind && node.children != []
    requires |ObjectClassesOf(v.classes, h.isObjectClass, RangeOf(dt))| > 1
    requires forall i :: 0 <= i < |node.children| ==> !KeyedAt(node.children, i, TypeKey)
    ensures NodeProblems(v, h, node, dt) == [Problem(node.offset, 0, MissingTypeMessage)]
  {
    assert FindValueAt(node, TypeKey).None?;
  }

  /** A label is expected exactly when a property of the class carries it, and the last such property is the one expected. */
  lemma {:induction false} ExpectedPropertiesLastWins(properties: map<string, PropertyNode>, ids: seq<string>, l: string)
    ensures l in ExpectedProperties(properties, ids) <==>
      l != "" && exists k :: 0 <= k < |ids| && ids[k] in properties && properties[ids[k]].labelText == l
    ensures l in ExpectedProperties(properties, ids) ==>
      exists k :: 0 <= k < |ids| && ids[k] in properties && ExpectedProperties(properties, ids)[l] == properties[ids[k]] &&
        properties[ids[k]].labelText == l &&
        forall j :: k < j < |ids| && ids[j] in properties ==> properties[ids[j]].labelText != l
  {
    if ids != [] {
      var init := ids[..|ids| - 1];
      ExpectedPropertiesLastWins(properties, init, l);
      assert forall k :: 0 <= k < |init| ==> init[k] == ids[k];
    }
  }

  // ----- the validators -----------------------------------------------------------------------

  /** The problem collection the validators share and append to. */
  class ProblemList {
    var items: seq<Problem>

    constructor ()
      ensures items == []
    {
      items := [];
    }

    method Push(p: Problem)
      modifies this
      ensures items == old(items) + [p]
    {
      items := items + [p];
    }
  }

  method AddProblem(node: JsonNode, problems: ProblemList, message: string, isContainer: bool)
    modifies problems
    ensures problems.items == old(problems.items) + [MakeProblem(node, message, isContainer)]
  {
    var length := if isContainer then 0 else node.length;
    problems.Push(Problem(node.offset, length, message));
  }

  method AddProblemOfInvalidType(h: Helpers, node: JsonNode, dt: PropertyNode, problems: ProblemList)
    modifies problems
    ensures problems.items == old(problems.items) + [InvalidTypeProblem(h, node, dt)]
  {
    var message := Join([InvalidTypeMessage] + h.validTypes(dt), LineFeed);
    AddProblem(node, problems, message, false);
  }

  method AddProblemOfUnexpectedProperty(name: JsonNode, problems: ProblemList)
    modifies problems
    ensures problems.items == old(problems.items) + [UnexpectedProblem(name)]
  {
    AddProblem(name, problems, ValueText(name.value) + " " + UnexpectedPropertyMessage, false);
  }

  /** `findClassNode`, as the search through the candidates it is. */
  method FindClassNode(h: Helpers, cs: seq<ClassNode>, type_: string) returns (r: Option<ClassNode>)
    ensures r == FindClass(h, cs, type_)
  {
    var i := 0;
    while i < |cs|
      invariant 0 <= i <= |cs|
      invariant FindClass(h, cs, type_) == FindClass(h, cs[i..], type_)
    {
      assert cs[i..][1..] == cs[i + 1..];
      if h.classType(cs[i]) == type_ {
        return Some(cs[i]);
      }
      i := i + 1;
    }
    return None;
  }

  /** `getNamePropertyPair`. */
  method GetNamePropertyPair(node: JsonNode) returns (r: Option<PropertyPair>)
    ensures r == NamePair(node)
  {
    if node.kind != ObjectKind || |node.children| == 0 {
      return None;
    }
    var i := 0;
    while i < |node.children|
      invariant 0 <= i <= |node.children|
      invariant NamePair(node) == NamePairIn(node.children[i..])
    {
      assert node.children[i..][1..] == node.children[i + 1..];
      var pair := ParseProperty(node.children[i]);
      if pair.Some? && pair.value.name.value == StringValue(NameKey) {
        return pair;
      }
      i := i + 1;
    }
    return None;
  }

  /** `validateNode`. */
  method ValidateNode(v: GraphView, h: Helpers, node: JsonNode, dt: PropertyNode, problems: ProblemList)
    modifies problems
    ensures problems.items == old(problems.items) + NodeProblems(v, h, node, dt)
    decreases node, 3
  {
    match node.kind
    case ObjectKind => ValidateObjectNode(v, h, node, dt, problems);
    case ArrayKind => ValidateArrayNode(v, h, node, dt, problems);
    case StringKind => ValidateStringNode(v, h, node, dt, problems);
    case NumberKind => ValidateNumberNode(v, h, node, dt, problems);
    case BooleanKind => ValidateBooleanNode(v, h, node, dt, problems);
    case _ =>
  }

  /** `validateObjectNode`. */
  method ValidateObjectNode(v: GraphView, h: Helpers, node: JsonNode, dt: PropertyNode, problems: ProblemList)
    modifies problems
    ensures problems.items == old(problems.items) + ObjectProblems(v, h, node, dt)
    decreases node, 2
  {
    var cs := GetObjectClasses(v.classes, h.isObjectClass, dt);
    if |cs| == 0 {
      AddProblem(node, problems, NotObjectTypeMessage, false);
      return;
    }
    if |node.children| == 0 {
      AddProblem(node, problems, EmptyObjectMessage, true);
      return;
    }
    var typeNode := FindValueAt(node, TypeKey);
    if typeNode.None? && |cs| != 1 {
      AddProblem(node, problems, MissingTypeMessage, true);
      return;
    }
    ValidateTypedObject(v, h, node, dt, cs, typeNode, problems);
  }

  /** The part of `validateObjectNode` from the `@type` check on. */
  method ValidateTypedObject(v: GraphView, h: Helpers, node: JsonNode, dt: PropertyNode, cs: seq<ClassNode>,
                             typeNode: Option<JsonNode>, problems: ProblemList)
    requires cs != []
    modifies problems
    ensures problems.items == old(problems.items) + TypedObjectProblems(v, h, node, dt, cs, typeNode)
    decreases node, 1, 2
  {
    var classNode: Option<ClassNode>;
    ghost var typeProblems: seq<Problem>;
    if typeNode.Some? {
      classNode := GetValidObjectType(h, typeNode.value, dt, cs, problems);
      typeProblems := ValidObjectType(h, typeNode.value, dt, cs).1;
    } else {
      classNode := Some(cs[0]);
      typeProblems := [];
    }
    if classNode.Some? {
      ValidateClassObject(v, h, node, dt, classNode.value, problems);
      AppendTwo(old(problems.items), typeProblems, ClassProblems(v, h, node, dt, classNode.value));
    }
  }

  /** The part of `validateObjectNode` after the class is found. */
  method ValidateClassObject(v: GraphView, h: Helpers, node: JsonNode, dt: PropertyNode, c: ClassNode, problems: ProblemList)
    modifies problems
    ensures problems.items == old(problems.items) + ClassProblems(v, h, node, dt, c)
    decreases node, 1, 1
  {
    if IsLanguageNode(c) {
      ValidateLanguageNode(v, h, node, dt, problems);
      return;
    }
    var exist := ValidateProperties(v, h, node, c, problems);
    if c.constraint.Some? && c.constraint.value.required.Some? {
      var missing := FilterRequired(c.constraint.value.required.value, exist, dt.labelText == SchemaLabel);
      if |missing| > 0 {
        AddProblem(node, problems, Join([MissingRequiredMessage] + missing, LineFeed), true);
      }
    }
  }

  /** The filter of the required properties in `validateObjectNode`. */
  method FilterRequired(required: seq<string>, exist: set<string>, exemptContext: bool) returns (missing: seq<string>)
    ensures missing == MissingRequired(required, exist, exemptContext)
  {
    missing := [];
    for i := 0 to |required|
      invariant missing == MissingRequired(required[..i], exist, exemptContext)
    {
      assert required[..i + 1][..i] == required[..i];
      var p := required[i];
      if p !in exist && !(p == ContextKey && exemptContext) {
        missing := missing + [p];
      }
    }
    assert required[..|required|] == required;
  }

  /** `getValidObjectType`: the class it returns, and the problems it appends. */
  method GetValidObjectType(h: Helpers, typeNode: JsonNode, dt: PropertyNode, cs: seq<ClassNode>, problems: ProblemList)
    returns (classNode: Option<ClassNode>)
    modifies problems
    ensures classNode == ValidObjectType(h, typeNode, dt, cs).0
    ensures problems.items == old(problems.items) + ValidObjectType(h, typeNode, dt, cs).1
  {
    var dummy := DummyNode(cs);
    classNode := None;
    if typeNode.kind == StringKind {
      classNode := FindClassNode(h, cs, ValueText(typeNode.value));
    } else if typeNode.kind == ArrayKind && dt.labelText == ContentsLabel {
      if |typeNode.children| == 2 {
        var conflict;
        classNode, conflict := ScanTypeArray(h, typeNode, dt, cs, problems);
        if conflict {
          return None;
        }
      }
    }
    if classNode.None? {
      AddProblemOfInvalidType(h, typeNode, dummy, problems);
    }
  }

  /**
   * The loop of `getValidObjectType` over a semantic type array: the class
   * its strings name, or the conflict problem when two of them name one.
   */
  method ScanTypeArray(h: Helpers, typeNode: JsonNode, dt: PropertyNode, cs: seq<ClassNode>, problems: ProblemList)
    returns (classNode: Option<ClassNode>, conflict: bool)
    requires typeNode.kind == ArrayKind && dt.labelText == ContentsLabel && |typeNode.children| == 2
    modifies problems
    ensures conflict <==> ScanTypes(h, cs, typeNode.children).Conflict?
    ensures !conflict ==> classNode == ValidObjectType(h, typeNode, dt, cs).0
    ensures problems.items == old(problems.items) + (if conflict then ValidObjectType(h, typeNode, dt, cs).1 else [])
  {
    var elements := typeNode.children;
    classNode := None;
    conflict := false;
    for j := 0 to |elements|
      invariant !ScanTypes(h, cs, elements[..j]).Conflict?
      invariant classNode == if ScanTypes(h, cs, elements[..j]).OneClass? then Some(ScanTypes(h, cs, elements[..j]).c) else None
      invariant problems.items == old(problems.items)
    {
      assert elements[..j + 1][..j] == elements[..j];
      var child := elements[j];
      if child.kind == StringKind {
        var currentNode := FindClassNode(h, cs, ValueText(child.value));
        if currentNode.Some? {
          if classNode.Some? {
            assert elements[..j + 1] == elements by {
              assert j == 1 && elements[..2] == elements;
            }
            AddProblem(typeNode, problems,
              ConflictTypeMessage + " " + LabelText(classNode.value) + " and " + LabelText(currentNode.value), false);
            return None, true;
          } else {
            classNode := currentNode;
          }
        }
      }
    }
    assert elements[..|elements|] == elements;
  }

  /** The map of expected properties `validateProperties` builds. */
  method ExpectedPropertiesOf(properties: map<string, PropertyNode>, ids: seq<string>) returns (expected: map<string, PropertyNode>)
    ensures expected == ExpectedProperties(properties, ids)
  {
    expected := map[];
    for i := 0 to |ids|
      invariant expected == ExpectedProperties(properties, ids[..i])
    {
      assert ids[..i + 1][..i] == ids[..i];
      var id := ids[i];
      if id in properties && properties[id].labelText != "" {
        expected := expected[properties[id].labelText := properties[id]];
      }
    }
    assert ids[..|ids|] == ids;
  }

  /** `validateProperties`: the problems it appends, and the names it records as present. */
  method ValidateProperties(v: GraphView, h: Helpers, node: JsonNode, c: ClassNode, problems: ProblemList)
    returns (exist: set<string>)
    modifies problems
    ensures problems.items == old(problems.items) + PropertiesProblems(v, h, node, c, |node.children|)
    ensures exist == PresentNames(node.children)
    decreases node, 1, 0
  {
    var expected := ExpectedPropertiesOf(v.properties, c.properties);
    exist := {};
    for i := 0 to |node.children|
      invariant problems.items == old(problems.items) + PropertiesProblems(v, h, node, c, i)
      invariant exist == PresentNames(node.children[..i])
    {
      assert node.children[..i + 1][..i] == node.children[..i];
      var pair := ParseProperty(node.children[i]);
      if pair.Some? {
        exist := exist + {ValueText(pair.value.name.value)};
      }
      ValidateProperty(v, h, node, c, expected, i, problems);
      AppendTwo(old(problems.items), PropertiesProblems(v, h, node, c, i), PropertyProblems(v, h, node, c, i));
    }
    assert node.children[..|node.children|] == node.children;
  }

  /** One pass of the loop of `validateProperties`. */
  method ValidateProperty(v: GraphView, h: Helpers, node: JsonNode, c: ClassNode, expected: map<string, PropertyNode>,
                          i: nat, problems: ProblemList)
    requires i < |node.children| && expected == ExpectedProperties(v.properties, c.properties)
    modifies problems
    ensures problems.items == old(problems.items) + PropertyProblems(v, h, node, c, i)
    decreases node, 0
  {
    var pair := ParseProperty(node.children[i]);
    if pair.None? {
      return;
    }
    var name := ValueText(pair.value.name.value);
    if name == IdKey {
      if v.idProperty.Some? {
        ValidateNode(v, h, pair.value.value, v.idProperty.value, problems);
      }
    } else if name == ContextKey {
      if c.constraint.Some? && c.constraint.value.required.Some? && ContextKey in c.constraint.value.required.value {
        if !IsDigitalTwinContext(h, pair.value.value) {
          AddProblem(pair.value.value, problems, InvalidContextMessage, false);
        }
      } else {
        AddProblemOfUnexpectedProperty(pair.value.name, problems);
      }
    } else if name != TypeKey {
      if name in expected {
        ValidateNode(v, h, pair.value.value, expected[name], problems);
      } else {
        AddProblemOfUnexpectedProperty(pair.value.name, problems);
      }
    }
  }

  /** `validateArrayNode`. */
  method ValidateArrayNode(v: GraphView, h: Helpers, node: JsonNode, dt: PropertyNode, problems: ProblemList)
    modifies problems
    ensures problems.items == old(problems.items) + ArrayProblems(v, h, node, dt)
    decreases node, 2
  {
    if !dt.isArray {
      AddProblemOfInvalidType(h, node, dt, problems);
      return;
    }
    if |node.children| == 0 {
      AddProblem(node, problems, EmptyArrayMessage, true);
      return;
    }
    assert ArrayProblems(v, h, node, dt) == ItemCountProblems(node, dt) + ElementsProblems(v, h, node, dt, |node.children|);
    AddItemCountProblems(node, dt, problems);
    ValidateElements(v, h, node, dt, problems);
    AppendTwo(old(problems.items), ItemCountProblems(node, dt), ElementsProblems(v, h, node, dt, |node.children|));
  }

  /** The element loop of `validateArrayNode`. */
  method ValidateElements(v: GraphView, h: Helpers, node: JsonNode, dt: PropertyNode, problems: ProblemList)
    modifies problems
    ensures problems.items == old(problems.items) + ElementsProblems(v, h, node, dt, |node.children|)
    decreases node, 1, 0
  {
    var exist: set<NodeValue> := {};
    for i := 0 to |node.children|
      invariant problems.items == old(problems.items) + ElementsProblems(v, h, node, dt, i)
      invariant exist == NamesOf(node.children[..i])
    {
      ghost var names := exist;
      exist := ValidateElement(v, h, node, dt, i, exist, problems);
      AppendSteps(old(problems.items), ElementsProblems(v, h, node, dt, i),
        DuplicateProblems(node.children[i], names), NodeProblems(v, h, node.children[i], dt));
    }
  }

  /** The item count checks of `validateArrayNode`. */
  method AddItemCountProblems(node: JsonNode, dt: PropertyNode, problems: ProblemList)
    modifies problems
    ensures problems.items == old(problems.items) + ItemCountProblems(node, dt)
  {
    if dt.constraint.Some? {
      var c := dt.constraint.value;
      if c.minItems.Some? && c.minItems.value != 0 && |node.children| < c.minItems.value {
        AddProblem(node, problems, TooFewItemsMessage + " " + IntText(c.minItems.value) + ".", true);
      }
      if c.maxItems.Some? && c.maxItems.value != 0 && |node.children| > c.maxItems.value {
        AddProblem(node, problems, TooManyItemsMessage + " " + IntText(c.maxItems.value) + ".", true);
      }
    }
  }

  /** One pass of the element loop of `validateArrayNode`: the duplicate name check, then the element. */
  method ValidateElement(v: GraphView, h: Helpers, node: JsonNode, dt: PropertyNode, i: nat, exist: set<NodeValue>,
                         problems: ProblemList) returns (after: set<NodeValue>)
    requires i < |node.children| && exist == NamesOf(node.children[..i])
    modifies problems
    ensures problems.items == old(problems.items) +
      DuplicateProblems(node.children[i], exist) + NodeProblems(v, h, node.children[i], dt)
    ensures after == NamesOf(node.children[..i + 1])
    decreases node, 0
  {
    assert node.children[..i + 1][..i] == node.children[..i];
    var child := node.children[i];
    var pair := GetNamePropertyPair(child);
    after := exist;
    if pair.Some? {
      var objectName := pair.value.value.value;
      if objectName in exist {
        AddProblem(pair.value.value, problems, ValueText(objectName) + " " + DuplicateItemMessage, false);
      } else {
        after := exist + {objectName};
      }
    }
    ghost var checked := problems.items;
    assert checked == old(problems.items) + DuplicateProblems(child, exist);
    ValidateNode(v, h, child, dt, problems);
  }

  /** Appending in steps is appending the steps. */
  lemma AppendSteps(base: seq<Problem>, done: seq<Problem>, next: seq<Problem>, more: seq<Problem>)
    ensures base + done + next + more == base + (done + next + more)
  {
  }

  lemma AppendTwo(base: seq<Problem>, done: seq<Problem>, next: seq<Problem>)
    ensures base + done + next == base + (done + next)
  {
  }

  /** `validateStringNode`. */
  method ValidateStringNode(v: GraphView, h: Helpers, node: JsonNode, dt: PropertyNode, problems: ProblemList)
    modifies problems
    ensures problems.items == old(problems.items) + StringProblems(v, h, node, dt)
  {
    var classNode := FindClassNode(h, RangeClasses(v.classes, dt), StringSchema);
    if classNode.None? {
      ValidateEnumNode(v, h, node, dt, problems);
      return;
    }
    var value := StringOf(node);
    if value == "" {
      AddProblem(node, problems, EmptyStringMessage, false);
      return;
    }
    if dt.constraint.Some? {
      var c := dt.constraint.value;
      if c.minLength.Some? && c.minLength.value != 0 && |value| < c.minLength.value {
        AddProblem(node, problems, ShorterThanMinLengthMessage + " " + IntText(c.minLength.value) + ".", false);
      } else if c.maxLength.Some? && c.maxLength.value != 0 && |value| > c.maxLength.value {
        AddProblem(node, problems, LongerThanMaxLengthMessage + " " + IntText(c.maxLength.value) + ".", false);
      } else if c.pattern.Some? && c.pattern.value != "" {
        if !h.matches(c.pattern.value, value) {
          AddProblem(node, problems, NotMatchPatternMessage + " " + c.pattern.value + ".", false);
        }
      }
    }
  }

  /** `validateEnumNode`. */
  method ValidateEnumNode(v: GraphView, h: Helpers, node: JsonNode, dt: PropertyNode, problems: ProblemList)
    modifies problems
    ensures problems.items == old(problems.items) + EnumProblems(v, h, node, dt)
  {
    var enums := GetEnums(v.classes, dt);
    if |enums| == 0 {
      AddProblemOfInvalidType(h, node, dt, problems);
    } else if !(node.value.StringValue? && node.value.s in enums) {
      AddProblem(node, problems, Join([InvalidEnumMessage] + enums, LineFeed), false);
    }
  }

  /** `validateNumberNode`. */
  method ValidateNumberNode(v: GraphView, h: Helpers, node: JsonNode, dt: PropertyNode, problems: ProblemList)
    modifies problems
    ensures problems.items == old(problems.items) + NumberProblems(v, h, node, dt)
  {
    var classNode := FindClassNode(h, RangeClasses(v.classes, dt), IntSchema);
    if classNode.None? || !(node.value.NumberValue? && ObjectDiagnostics.IsIntegral(node.value.text)) {
      AddProblemOfInvalidType(h, node, dt, problems);
    }
  }

  /** `validateBooleanNode`. */
  method ValidateBooleanNode(v: GraphView, h: Helpers, node: JsonNode, dt: PropertyNode, problems: ProblemList)
    modifies problems
    ensures problems.items == old(problems.items) + BooleanProblems(v, h, node, dt)
  {
    var classNode := FindClassNode(h, RangeClasses(v.classes, dt), BooleanSchema);
    if classNode.None? {
      AddProblemOfInvalidType(h, node, dt, problems);
    }
  }

  /** `validateLanguageNode`. */
  method ValidateLanguageNode(v: GraphView, h: Helpers, node: JsonNode, dt: PropertyNode, problems: ProblemList)
    modifies problems
    ensures problems.items == old(problems.items) + LanguageProblems(v, h, node, dt, |node.children|)
    decreases node, 1, 0
  {
    for i := 0 to |node.children|
      invariant problems.items == old(problems.items) + LanguageProblems(v, h, node, dt, i)
    {
      ValidateLanguageEntry(v, h, node, dt, i, problems);
    }
  }

  /** One pass of the loop of `validateLanguageNode`: a language code as key and a string as value. */
  method ValidateLanguageEntry(v: GraphView, h: Helpers, node: JsonNode, dt: PropertyNode, i: nat, problems: ProblemList)
    requires i < |node.children|
    modifies problems
    ensures problems.items == old(problems.items) + LanguageEntryProblems(v, h, node, dt, i)
  {
    var pair := ParseProperty(node.children[i]);
    if pair.Some? {
      if ValueText(pair.value.name.value) !in h.languageCodes {
        AddProblemOfUnexpectedProperty(pair.value.name, problems);
      } else if !pair.value.value.value.StringValue? {
        AddProblem(pair.value.value, problems, ValueNotStringMessage, false);
      } else {
        ValidateStringNode(v, h, pair.value.value, dt, problems);
      }
    }
  }

  /** What the validators read of a graph. */
  function ViewOf(g: DigitalTwinGraph): GraphView
    reads g
  {
    GraphView(g.classNodes, g.propertyNodes, g.GetPropertyNode(IdKey))
  }

  /**
   * `provideDiagnostics`: the problems of the whole model, checked against
   * the graph's entry node; none when the graph has no entry node.
   */
  method ProvideDiagnostics(g: DigitalTwinGraph, h: Helpers, node: JsonNode) returns (problems: seq<Problem>)
    ensures g.GetPropertyNode(EntryNodeId).None? ==> problems == []
    ensures g.GetPropertyNode(EntryNodeId).Some? ==>
      problems == NodeProblems(ViewOf(g), h, node, g.GetPropertyNode(EntryNodeId).value)
  {
    var entry := g.GetPropertyNode(EntryNodeId);
    if entry.None? {
      return [];
    }
    var list := new ProblemList();
    ValidateNode(ViewOf(g), h, node, entry.value, list);
    problems := list.items;
  }
}
