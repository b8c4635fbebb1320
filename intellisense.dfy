/**
 * The IntelliSense helpers of src/DigitalTwin/pnp/src/intelliSense/
 * intelliSenseUtility.ts over the tree a JSON parser gives (a node has a
 * type, a value, an offset, a length and children). A node's parent is not
 * stored in the node: the helpers that climb take the chain of ancestors,
 * the root first and the parent last.
 */
module IntelliSense {
  import opened Wrappers
  import opened Strings
  import opened TwinGraph

  const SchemaName := "schema"
  const ImplementsName := "implements"
  const InterfaceSchemaName := "interfaceSchema"

  /** `JsonNodeType`, with `null` added, which the parser also produces. */
  datatype JsonNodeType = ObjectKind | ArrayKind | StringKind | NumberKind | BooleanKind | NullKind | PropertyKind

  /** The value of a node: a number keeps its text; containers and properties have none. */
  datatype NodeValue = NoValue | StringValue(s: string) | NumberValue(text: string) | BooleanValue(b: bool) | NullValue

  datatype JsonNode = JsonNode(kind: JsonNodeType, value: NodeValue, offset: int, length: int, children: seq<JsonNode>)

  /** `PropertyPair`: the name node and the value node of a property. */
  datatype PropertyPair = PropertyPair(name: JsonNode, value: JsonNode)

  /** The text of a value as a template string shows it. */
  function ValueText(v: NodeValue): string
  {
    match v
    case NoValue => "undefined"
    case StringValue(s) => s
    case NumberValue(text) => text
    case BooleanValue(b) => if b then "true" else "false"
    case NullValue => "null"
  }

  /** `isLanguageNode`: the class is the language class. */
  predicate IsLanguageNode(c: ClassNode)
  {
    c.id == LanguageId
  }

  /** `parseProperty`: the name and value of a property node with exactly two children; nothing otherwise. */
  function ParseProperty(node: JsonNode): (r: Option<PropertyPair>)
    ensures r.Some? <==> node.kind == PropertyKind && |node.children| == 2
    ensures r.Some? ==> r.value.name == node.children[0] && r.value.value == node.children[1]
    ensures r.Some? ==> r.value.name < node && r.value.value < node
  {
    if node.kind != PropertyKind || |node.children| != 2 then None
    else Some(PropertyPair(node.children[0], node.children[1]))
  }

  /**
   * What `getEnums` gathers from one class of a range: its enums, or, for
   * an abstract class without enums, the enums of its children. A class
   * missing from the map (never the case in a valid graph) gives none.
   */
  function ClassEnums(classes: map<string, ClassNode>, id: string): seq<string>
  {
    if id !in classes then []
    else if classes[id].enums != [] then classes[id].enums
    else if classes[id].isAbstract then ChildEnums(classes, classes[id].children)
    else []
  }

  function ChildEnums(classes: map<string, ClassNode>, children: seq<string>): seq<string>
  {
    ConcatMap(children, (c: string) => if c in classes then classes[c].enums else [])
  }

  /** The enums of a range, class by class. */
  function EnumsOf(classes: map<string, ClassNode>, range: seq<string>): seq<string>
  {
    ConcatMap(range, (id: string) => ClassEnums(classes, id))
  }

  /**
   * `getEnums`: the enums of the classes of the property's range, an
   * abstract class without enums giving those of its children.
   */
  method GetEnums(classes: map<string, ClassNode>, p: PropertyNode) returns (enums: seq<string>)
    ensures enums == EnumsOf(classes, RangeOf(p))
  {
    enums := [];
    if p.range.None? {
      return;
    }
    var range := p.range.value;
    for i := 0 to |range|
      invariant enums == EnumsOf(classes, range[..i])
    {
      assert range[..i + 1][..i] == range[..i];
      var id := range[i];
      if id in classes {
        var classNode := classes[id];
        if classNode.enums != [] {
          enums := enums + classNode.enums;
        } else if classNode.isAbstract {
          for j := 0 to |classNode.children|
            invariant enums == EnumsOf(classes, range[..i]) + ChildEnums(classes, classNode.children[..j])
          {
            assert classNode.children[..j + 1][..j] == classNode.children[..j];
            var child := classNode.children[j];
            if child in classes && classes[child].enums != [] {
              enums := enums + classes[child].enums;
            }
          }
          assert classNode.children[..|classNode.children|] == classNode.children;
        }
      }
    }
    assert range[..|range|] == range;
  }

  /**
   * A value is among the enums of a range exactly when a class of the range
   * has it as an enum, or is an abstract class without enums one of whose
   * children has it.
   */
  lemma EnumsMembership(classes: map<string, ClassNode>, range: seq<string>, e: string)
    ensures e in EnumsOf(classes, range) <==>
      exists id :: id in range && id in classes &&
        (e in classes[id].enums ||
         (classes[id].enums == [] && classes[id].isAbstract &&
          exists c :: c in classes[id].children && c in classes && e in classes[c].enums))
  {
    ConcatMapSpec(range, (id: string) => ClassEnums(classes, id), e);
    forall id | id in range && id in classes && classes[id].enums == [] && classes[id].isAbstract
      ensures e in ClassEnums(classes, id) <==> exists c :: c in classes[id].children && c in classes && e in classes[c].enums
    {
      ConcatMapSpec(classes[id].children, (c: string) => if c in classes then classes[c].enums else [], e);
    }
  }

  /**
   * What `getObjectClasses` gathers from one class of a range: the class
   * itself when it is an object class, or, for an abstract class, its
   * children that are not enums.
   */
  function ClassObjects(classes: map<string, ClassNode>, isObjectClass: ClassNode -> bool, id: string): seq<ClassNode>
  {
    if id !in classes then []
    else if isObjectClass(classes[id]) then [classes[id]]
    else if classes[id].isAbstract then ChildObjects(classes, classes[id].children)
    else []
  }

  function ChildObjects(classes: map<string, ClassNode>, children: seq<string>): seq<ClassNode>
  {
    ConcatMap(children, (c: string) => if c in classes && classes[c].enums == [] then [classes[c]] else [])
  }

  function ObjectClassesOf(classes: map<string, ClassNode>, isObjectClass: ClassNode -> bool, range: seq<string>): seq<ClassNode>
  {
    ConcatMap(range, (id: string) => ClassObjects(classes, isObjectClass, id))
  }

  /**
   * `getObjectClasses`: the object classes of the property's range, an
   * abstract class that is not one giving its children that are not enums.
   * Which classes are object classes is a parameter.
   */
  method GetObjectClasses(classes: map<string, ClassNode>, isObjectClass: ClassNode -> bool, p: PropertyNode)
    returns (result: seq<ClassNode>)
    ensures result == ObjectClassesOf(classes, isObjectClass, RangeOf(p))
  {
    result := [];
    if p.range.None? {
      return;
    }
    var range := p.range.value;
    for i := 0 to |range|
      invariant result == ObjectClassesOf(classes, isObjectClass, range[..i])
    {
      assert range[..i + 1][..i] == range[..i];
      var id := range[i];
      if id in classes {
        var classNode := classes[id];
        if isObjectClass(classNode) {
          result := result + [classNode];
        } else if classNode.isAbstract {
          for j := 0 to |classNode.children|
            invariant result == ObjectClassesOf(classes, isObjectClass, range[..i]) + ChildObjects(classes, classNode.children[..j])
          {
            assert classNode.children[..j + 1][..j] == classNode.children[..j];
            var child := classNode.children[j];
            if child in classes && classes[child].enums == [] {
              result := result + [classes[child]];
            }
          }
          assert classNode.children[..|classNode.children|] == classNode.children;
        }
      }
    }
    assert range[..|range|] == range;
  }

  /**
   * A class is among the object classes of a range exactly when it is an
   * object class of the range, or a child without enums of an abstract
   * class of the range that is not an object class.
   */
  lemma ObjectClassesMembership(classes: map<string, ClassNode>, isObjectClass: ClassNode -> bool, range: seq<string>, k: ClassNode)
    ensures k in ObjectClassesOf(classes, isObjectClass, range) <==>
      exists id :: id in range && id in classes &&
        ((isObjectClass(classes[id]) && k == classes[id]) ||
         (!isObjectClass(classes[id]) && classes[id].isAbstract &&
          exists c :: c in classes[id].children && c in classes && classes[c].enums == [] && k == classes[c]))
  {
    ConcatMapSpec(range, (id: string) => ClassObjects(classes, isObjectClass, id), k);
    forall id | id in range && id in classes && !isObjectClass(classes[id]) && classes[id].isAbstract
      ensures k in ClassObjects(classes, isObjectClass, id) <==>
        exists c :: c in classes[id].children && c in classes && classes[c].enums == [] && k == classes[c]
    {
      ConcatMapSpec(classes[id].children, (c: string) => if c in classes && classes[c].enums == [] then [classes[c]] else [], k);
    }
  }

  /**
   * `getOuterPropertyPair`: for an object node, the property holding it,
   * looking through one enclosing array; nothing for any other node or when
   * there is no such property.
   */
  function GetOuterPropertyPair(node: JsonNode, ancestors: seq<JsonNode>): (r: Option<PropertyPair>)
    ensures node.kind != ObjectKind || ancestors == [] ==> r.None?
    ensures node.kind == ObjectKind && ancestors != [] && ancestors[|ancestors| - 1].kind != ArrayKind ==>
      r == ParseProperty(ancestors[|ancestors| - 1])
    ensures node.kind == ObjectKind && |ancestors| >= 2 && ancestors[|ancestors| - 1].kind == ArrayKind ==>
      r == ParseProperty(ancestors[|ancestors| - 2])
  {
    if node.kind != ObjectKind || ancestors == [] then None
    else
      var parent := ancestors[|ancestors| - 1];
      if parent.kind == ArrayKind then
        if |ancestors| >= 2 then ParseProperty(ancestors[|ancestors| - 2]) else None
      else ParseProperty(parent)
  }

  /**
   * `resolvePropertyName`: the name of a property, except that `schema`
   * inside an object held by an `implements` property (directly or through
   * an array) is `interfaceSchema`. The ancestors are those of the name node.
   */
  function ResolvePropertyName(name: JsonNode, ancestors: seq<JsonNode>): (r: string)
    ensures ValueText(name.value) != SchemaName ==> r == ValueText(name.value)
    ensures ValueText(name.value) == SchemaName ==>
      (r == InterfaceSchemaName <==>
        |ancestors| >= 2 &&
        var outer := GetOuterPropertyPair(ancestors[|ancestors| - 2], ancestors[..|ancestors| - 2]);
        outer.Some? && ValueText(outer.value.name.value) == ImplementsName)
    ensures r == ValueText(name.value) || r == InterfaceSchemaName
  {
    var propertyName := ValueText(name.value);
    if propertyName != SchemaName then propertyName
    else if |ancestors| >= 2 then
      var outer := GetOuterPropertyPair(ancestors[|ancestors| - 2], ancestors[..|ancestors| - 2]);
      if outer.Some? && ValueText(outer.value.name.value) == ImplementsName then InterfaceSchemaName else propertyName
    else propertyName
  }

  /** A `schema` key in an object that is an element of an `implements` array resolves to `interfaceSchema`. */
  lemma SchemaUnderImplements(key: JsonNode, property: JsonNode, obj: JsonNode, arr: JsonNode, implements: JsonNode,
                              outerName: JsonNode)
    requires key.value == StringValue(SchemaName) && obj.kind == ObjectKind && arr.kind == ArrayKind
    requires implements.kind == PropertyKind && implements.children == [outerName, arr]
    requires outerName.value == StringValue(ImplementsName)
    ensures ResolvePropertyName(key, [implements, arr, obj, property]) == InterfaceSchemaName
  {
    var ancestors := [implements, arr, obj, property];
    assert ancestors[..2] == [implements, arr];
  }
}
