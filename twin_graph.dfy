/**
 * The IntelliSense graph of src/DigitalTwin/pnp/src/intelliSense/
 * digitalTwinGraph.ts: class and property nodes built from the JSON-LD
 * context, the constraint table and the RDF edges of the DigitalTwin
 * definitions, then completed by a breadth-first inheritance of properties
 * from the base class.
 *
 * The source's nodes are objects that refer to each other; here each node
 * is a value kept in a map under its id, and a reference from one node to
 * another is that other node's id, so an update to a node is seen through
 * every reference to it, as with the shared objects of the source.
 */
module TwinGraph {
  import opened Wrappers
  import Strings

  const ListContainer := "@list"
  const SetContainer := "@set"
  const LanguageId := "@language"
  const IdKey := "@id"
  const ContextKey := "@context"
  const EntryNodeId := "@entry"
  const BaseClass := "Entity"
  const InterfaceNode := "Interface"
  const CapabilityModelNode := "CapabilityModel"
  const SchemaNode := "Schema"
  const UnitNode := "Unit"
  const InterfaceSchemaNode := "InterfaceInstance/schema"
  const SchemaLabel := "schema"
  const StringSchema := "http://www.w3.org/2001/XMLSchema#string"
  const ClassType := "http://www.w3.org/2000/01/rdf-schema#Class"
  const PropertyType := "http://www.w3.org/1999/02/22-rdf-syntax-ns#Property"

  /** The JSON-LD container of a context term. */
  datatype Container = NoContainer | ArrayContainer | LanguageContainer

  /** A context node: the short name of an id and its container. */
  datatype ContextNode = ContextNode(name: string, container: Container)

  /** A constraint of the constraint table; an absent field is None. */
  datatype Constraint = Constraint(minItems: Option<int>, maxItems: Option<int>, minLength: Option<int>,
                                   maxLength: Option<int>, pattern: Option<string>, required: Option<seq<string>>)

  /**
   * A class node. An empty label stands for an unset one (the source only
   * ever tests it for truth), and an empty enum list for no enums (the
   * source creates the list and fills it in the same step).
   */
  datatype ClassNode = ClassNode(id: string, labelText: string, isAbstract: bool, children: seq<string>,
                                 properties: seq<string>, enums: seq<string>, constraint: Option<Constraint>)

  /** A property node; its range, when set, lists class node ids. */
  datatype PropertyNode = PropertyNode(id: string, labelText: string, isArray: bool, comment: Option<string>,
                                       range: Option<seq<string>>, constraint: Option<Constraint>)

  /** A term of the context definition: a plain id, or an object with `@id` and maybe `@container`. */
  datatype ContextTerm = IdTerm(iri: string) | ObjectTerm(id: string, container: Option<string>)

  /**
   * An entry of the constraint definition: the constraint fields it has, and
   * its string-valued members (the versions, for `@context`).
   */
  datatype DefinitionEntry = DefinitionEntry(fields: Constraint, members: seq<(string, string)>)

  /** An end of an edge: its `Id` and its `Value`. */
  datatype NodeRef = NodeRef(id: string, value: string)

  /** An edge of the graph definition; a missing end is None, a missing label the empty string. */
  datatype Edge = Edge(source: Option<NodeRef>, target: Option<NodeRef>, labelText: string)

  /** The edge labels the graph is built from. */
  datatype EdgeKind = TypeEdge | LabelEdge | DomainEdge | RangeEdge | SubClassOfEdge | CommentEdge | OtherEdge

  function EdgeKindOf(labelText: string): EdgeKind
  {
    if labelText == "http://www.w3.org/1999/02/22-rdf-syntax-ns#type" then TypeEdge
    else if labelText == "http://www.w3.org/2000/01/rdf-schema#label" then LabelEdge
    else if labelText == "http://www.w3.org/2000/01/rdf-schema#domain" then DomainEdge
    else if labelText == "http://www.w3.org/2000/01/rdf-schema#range" then RangeEdge
    else if labelText == "http://www.w3.org/2000/01/rdf-schema#subClassOf" then SubClassOfEdge
    else if labelText == "http://www.w3.org/2000/01/rdf-schema#comment" then CommentEdge
    else OtherEdge
  }

  /** `isValidEdge`: both ends and a label are present. */
  predicate IsValidEdge(e: Edge)
  {
    e.source.Some? && e.target.Some? && e.labelText != ""
  }

  /**
   * `resolveContainerType`: `@list` and `@set` are arrays, `@language` a
   * language map; an absent, empty or non-string container, or any other,
   * is none.
   */
  function ResolveContainerType(container: Option<string>): (r: Container)
    ensures r == ArrayContainer <==> container == Some(ListContainer) || container == Some(SetContainer)
    ensures r == LanguageContainer <==> container == Some(LanguageId)
  {
    match container
    case None => NoContainer
    case Some(c) =>
      if c == ListContainer || c == SetContainer then ArrayContainer
      else if c == LanguageId then LanguageContainer
      else NoContainer
  }

  /** `isConstraintNode`: some constraint field is present and truthy (a zero bound or an empty pattern is not). */
  predicate IsConstraintNode(c: Constraint)
  {
    (c.minItems.Some? && c.minItems.value != 0) || (c.maxItems.Some? && c.maxItems.value != 0) ||
    (c.minLength.Some? && c.minLength.value != 0) || (c.maxLength.Some? && c.maxLength.value != 0) ||
    (c.pattern.Some? && c.pattern.value != "") || c.required.Some?
  }

  predicate IsDigit(c: char)
  {
    '0' <= c <= '9'
  }

  /** The value of a digit of base 16 or less, and 16 for any other character. */
  function DigitValue(c: char): (v: nat)
    ensures v <= 16
    ensures v < 10 <==> IsDigit(c)
  {
    if '0' <= c <= '9' then (c - '0') as nat
    else if 'a' <= c <= 'f' then (c - 'a') as nat + 10
    else if 'A' <= c <= 'F' then (c - 'A') as nat + 10
    else 16
  }

  /** `c` is a digit of base `radix`. */
  predicate IsDigitIn(c: char, radix: nat)
  {
    DigitValue(c) < radix
  }

  /** Every character of `d` is a digit of base `radix`. */
  predicate AllDigitsIn(d: string, radix: nat)
  {
    forall i :: 0 <= i < |d| ==> IsDigitIn(d[i], radix)
  }

  /** The value of a run of digits of base `radix`, most significant first. */
  function RadixValue(d: string, radix: nat): nat
  {
    if d == [] then 0 else RadixValue(d[..|d| - 1], radix) * radix + DigitValue(d[|d| - 1])
  }

  /** The value of the leading digits of base `radix` of `s`, read after the value `acc`, and how many there are. */
  function LeadingDigits(s: string, radix: nat, acc: nat): (r: (nat, nat))
    ensures r.1 <= |s|
    ensures AllDigitsIn(s[..r.1], radix)
    ensures r.1 < |s| ==> !IsDigitIn(s[r.1], radix)
  {
    if s != [] && IsDigitIn(s[0], radix) then
      var r := LeadingDigits(s[1..], radix, acc * radix + DigitValue(s[0]));
      assert s[..r.1 + 1] == [s[0]] + s[1..][..r.1];
      (r.0, r.1 + 1)
    else (acc, 0)
  }

  /** The text after the white space and the sign that `parseInt` skips. */
  function Unsigned(s: string): (r: string)
    ensures |r| <= |s|
  {
    var t := Strings.TrimStart(s);
    if t != [] && (t[0] == '-' || t[0] == '+') then t[1..] else t
  }

  /** `parseInt` reads a minus sign after the leading white space. */
  predicate Negative(s: string)
  {
    var t := Strings.TrimStart(s);
    t != [] && t[0] == '-'
  }

  /** The text after the sign starts with "0x" or "0X", which makes `parseInt` without a radix read base 16. */
  predicate HexPrefixed(u: string)
  {
    |u| >= 2 && u[0] == '0' && (u[1] == 'x' || u[1] == 'X')
  }

  /** The scan of the digits `parseInt` reads: hexadecimal after the prefix, decimal otherwise. */
  function DigitScan(u: string): (r: (nat, nat))
  {
    if HexPrefixed(u) then LeadingDigits(u[2..], 16, 0) else LeadingDigits(u, 10, 0)
  }

  /**
   * `parseInt(s)` without a radix, as the version table uses it: leading
   * white space, an optional sign, then "0x" or "0X" and hexadecimal digits,
   * or decimal digits; None (NaN) when no digit of the base follows.
   */
  function ParseInt(s: string): (r: Option<int>)
    ensures !HexPrefixed(Unsigned(s)) ==> (r.Some? <==> Unsigned(s) != [] && IsDigit(Unsigned(s)[0]))
    ensures HexPrefixed(Unsigned(s)) ==> (r.Some? <==> |Unsigned(s)| > 2 && IsDigitIn(Unsigned(s)[2], 16))
    ensures r.Some? && r.value < 0 ==> Negative(s)
    ensures r.Some? && r.value > 0 ==> !Negative(s)
  {
    var scan := DigitScan(Unsigned(s));
    if scan.1 == 0 then None
    else if Negative(s) then Some(-(scan.0 as int))
    else Some(scan.0 as int)
  }

  /** Reading one more digit after a run of digits. */
  lemma {:induction false} LeadingDigitsSnoc(d: string, c: char, radix: nat, acc: nat)
    requires AllDigitsIn(d, radix) && IsDigitIn(c, radix)
    ensures LeadingDigits(d + [c], radix, acc).0 == LeadingDigits(d, radix, acc).0 * radix + DigitValue(c)
    decreases |d|
  {
    if d != [] {
      assert (d + [c])[1..] == d[1..] + [c];
      assert AllDigitsIn(d[1..], radix) by {
        forall i | 0 <= i < |d[1..]| ensures IsDigitIn(d[1..][i], radix) {
          assert d[1..][i] == d[i + 1];
        }
      }
      LeadingDigitsSnoc(d[1..], c, radix, acc * radix + DigitValue(d[0]));
    } else {
      assert [c][1..] == [];
    }
  }

  /** The value read from a run of digits does not depend on what follows it. */
  lemma {:induction false} DigitsRun(d: string, t: string, radix: nat, acc: nat)
    requires AllDigitsIn(d, radix)
    requires t == [] || !IsDigitIn(t[0], radix)
    ensures LeadingDigits(d + t, radix, acc) == (LeadingDigits(d, radix, acc).0, |d|)
    decreases |d|
  {
    if d != [] {
      assert (d + t)[1..] == d[1..] + t;
      assert AllDigitsIn(d[1..], radix) by {
        forall i | 0 <= i < |d[1..]| ensures IsDigitIn(d[1..][i], radix) {
          assert d[1..][i] == d[i + 1];
        }
      }
      DigitsRun(d[1..], t, radix, acc * radix + DigitValue(d[0]));
    } else {
      assert [] + t == t;
    }
  }

  /** Reading a run of digits from the front gives its value. */
  lemma {:induction false} DigitsValueFromFront(d: string, radix: nat)
    requires AllDigitsIn(d, radix)
    ensures LeadingDigits(d, radix, 0).0 == RadixValue(d, radix)
    decreases |d|
  {
    if d != [] {
      var front := d[..|d| - 1];
      assert d == front + [d[|d| - 1]];
      assert AllDigitsIn(front, radix) by {
        forall i | 0 <= i < |front| ensures IsDigitIn(front[i], radix) {
          assert front[i] == d[i];
        }
      }
      LeadingDigitsSnoc(front, d[|d| - 1], radix, 0);
      DigitsValueFromFront(front, radix);
    }
  }

  /** A run of digits followed by a non-digit is read as the value of the run. */
  lemma LeadingDigitsValue(d: string, t: string, radix: nat)
    requires AllDigitsIn(d, radix)
    requires t == [] || !IsDigitIn(t[0], radix)
    ensures LeadingDigits(d + t, radix, 0) == (RadixValue(d, radix), |d|)
  {
    DigitsRun(d, t, radix, 0);
    DigitsValueFromFront(d, radix);
  }

  /** In base 10 the value of a run of digits is its decimal value. */
  lemma {:induction false} DecimalValue(d: string)
    requires forall i :: 0 <= i < |d| ==> '0' <= d[i] <= '9'
    ensures RadixValue(d, 10) == Strings.DigitsValue(d)
    decreases |d|
  {
    if d != [] {
      DecimalValue(d[..|d| - 1]);
    }
  }

  /**
   * `parseInt` of a sign, a run of decimal digits and anything that does not
   * start with a digit is the value of the run, negated after a minus sign;
   * a lone "0" followed by "x" or "X" is the hexadecimal prefix instead.
   */
  lemma ParseIntDigits(sign: string, d: string, t: string)
    requires |sign| <= 1 && (sign != [] ==> sign[0] == '-' || sign[0] == '+')
    requires d != [] && forall i :: 0 <= i < |d| ==> '0' <= d[i] <= '9'
    requires t == [] || !IsDigit(t[0])
    requires !(d == "0" && t != [] && (t[0] == 'x' || t[0] == 'X'))
    ensures ParseInt(sign + (d + t)).Some?
    ensures sign != [] && sign[0] == '-' ==> ParseInt(sign + (d + t)).value == -(Strings.DigitsValue(d) as int)
    ensures sign == [] || sign[0] != '-' ==> ParseInt(sign + (d + t)).value == Strings.DigitsValue(d)
  {
    SignSkipped(sign, d + t);
    assert !HexPrefixed(d + t) by {
      if |d| >= 2 {
        assert (d + t)[1] == d[1];
      } else if t != [] {
        assert (d + t)[0] == d[0] && (d + t)[1] == t[0];
      }
    }
    assert AllDigitsIn(d, 10) by {
      forall i | 0 <= i < |d| ensures IsDigitIn(d[i], 10) {
        assert IsDigit(d[i]);
      }
    }
    LeadingDigitsValue(d, t, 10);
    DecimalValue(d);
    ParseIntOfScan(sign + (d + t), Strings.DigitsValue(d), |d|);
  }

  /**
   * `parseInt` of a sign, "0x" or "0X", a run of hexadecimal digits and
   * anything that does not start with one is the base-16 value of the run,
   * negated after a minus sign.
   */
  lemma ParseIntHex(sign: string, x: char, h: string, t: string)
    requires |sign| <= 1 && (sign != [] ==> sign[0] == '-' || sign[0] == '+')
    requires x == 'x' || x == 'X'
    requires h != [] && AllDigitsIn(h, 16)
    requires t == [] || !IsDigitIn(t[0], 16)
    ensures ParseInt(sign + (['0', x] + (h + t))).Some?
    ensures sign != [] && sign[0] == '-' ==> ParseInt(sign + (['0', x] + (h + t))).value == -(RadixValue(h, 16) as int)
    ensures sign == [] || sign[0] != '-' ==> ParseInt(sign + (['0', x] + (h + t))).value == RadixValue(h, 16)
  {
    var rest := ['0', x] + (h + t);
    SignSkipped(sign, rest);
    assert HexPrefixed(rest) && rest[2..] == h + t;
    LeadingDigitsValue(h, t, 16);
    ParseIntOfScan(sign + rest, RadixValue(h, 16), |h|);
  }

  /** `parseInt` in terms of the scan of the digits after the sign. */
  lemma ParseIntOfScan(s: string, value: nat, count: nat)
    requires DigitScan(Unsigned(s)) == (value, count) && count > 0
    ensures ParseInt(s).Some?
    ensures Negative(s) ==> ParseInt(s).value == -(value as int)
    ensures !Negative(s) ==> ParseInt(s).value == value
  {
  }

  /** `parseInt` reads the sign and goes on after it. */
  lemma SignSkipped(sign: string, rest: string)
    requires |sign| <= 1 && (sign != [] ==> sign[0] == '-' || sign[0] == '+')
    requires rest != [] && '0' <= rest[0] <= '9'
    ensures Unsigned(sign + rest) == rest
    ensures Negative(sign + rest) <==> sign != [] && sign[0] == '-'
  {
    var s := sign + rest;
    assert s[0] == if sign == [] then rest[0] else sign[0];
    SignOrDigitKept(s);
    if sign != [] {
      assert s[1..] == rest;
    }
  }

  /** `parseInt` skips no white space before a sign or a digit. */
  lemma SignOrDigitKept(s: string)
    requires s != [] && (s[0] == '-' || s[0] == '+' || '0' <= s[0] <= '9')
    ensures Strings.TrimStart(s) == s
  {
  }
  /** The version number of a key `v<n>` of the `@context` table, a NaN read as 0 by `getVersion`. */
  function VersionOfKey(vKey: string): int
  {
    match ParseInt(if vKey == [] then [] else vKey[1..])
    case Some(n) => n
    case None => 0
  }

  /** The key `v` followed by the printed number `n` gives version `n`. */
  lemma VersionKeys(n: nat)
    ensures VersionOfKey("v" + Strings.NatToString(n)) == n
  {
    var digits := Strings.NatToString(n);
    assert ("v" + digits)[1..] == "" + (digits + "");
    ParseIntDigits("", digits, "");
    Strings.NatToStringValue(n);
  }

  // ----- new nodes ------------------------------------------------------------------

  /** The class node `ensureClassNode` creates: labelled and constrained by its context node, if it has one. */
  function NewClassNode(contextNodes: map<string, ContextNode>, constraints: map<string, Constraint>, id: string): (r: ClassNode)
    ensures r.id == id && r.children == [] && r.properties == [] && r.enums == [] && !r.isAbstract
    ensures id in contextNodes <==> r.labelText != "" || (id in contextNodes && contextNodes[id].name == "")
  {
    if id in contextNodes then
      var name := contextNodes[id].name;
      ClassNode(id, name, false, [], [], [], if name in constraints then Some(constraints[name]) else None)
    else ClassNode(id, "", false, [], [], [], None)
  }

  /**
   * The property node `ensurePropertyNode` creates: labelled by its context
   * node, an array exactly when the container is a list or a set, with the
   * language class as its range for a language map.
   */
  function NewPropertyNode(contextNodes: map<string, ContextNode>, constraints: map<string, Constraint>, id: string): (r: PropertyNode)
    ensures r.id == id && r.comment.None?
    ensures r.isArray <==> id in contextNodes && contextNodes[id].container == ArrayContainer
    ensures r.range.Some? <==> id in contextNodes && contextNodes[id].container == LanguageContainer
    ensures r.range.Some? ==> r.range.value == [LanguageId]
  {
    if id in contextNodes then
      var node := contextNodes[id];
      PropertyNode(id, node.name, node.container == ArrayContainer, None,
        if node.container == LanguageContainer then Some([LanguageId]) else None,
        if node.name in constraints then Some(constraints[node.name]) else None)
    else PropertyNode(id, "", false, None, None, None)
  }

  /** The class map after `ensureClassNode(id)`. */
  function WithClass(classes: map<string, ClassNode>, contextNodes: map<string, ContextNode>,
                     constraints: map<string, Constraint>, id: string): (r: map<string, ClassNode>)
    ensures id in r && r.Keys == classes.Keys + {id}
    ensures forall k :: k in classes ==> r[k] == classes[k]
  {
    if id in classes then classes else classes[id := NewClassNode(contextNodes, constraints, id)]
  }

  /** Every class of the map is stored under its own id. */
  ghost predicate ClassesKeyed(classes: map<string, ClassNode>)
  {
    forall id :: id in classes ==> classes[id].id == id
  }

  ghost predicate PropertiesKeyed(props: map<string, PropertyNode>)
  {
    forall id :: id in props ==> props[id].id == id
  }

  /** The children of every class are classes of the map. */
  ghost predicate ChildrenResolve(classes: map<string, ClassNode>)
  {
    forall id, c :: id in classes && c in classes[id].children ==> c in classes
  }

  /** The properties of every class are property nodes. */
  ghost predicate PropertiesResolve(classes: map<string, ClassNode>, props: map<string, PropertyNode>)
  {
    forall id, p :: id in classes && p in classes[id].properties ==> p in props
  }

  /** The range of every property lists classes of the map. */
  ghost predicate RangesResolve(classes: map<string, ClassNode>, props: map<string, PropertyNode>)
  {
    forall id, c :: id in props && props[id].range.Some? && c in props[id].range.value ==> c in classes
  }

  /** Nodes are stored under their ids and every reference between nodes resolves. */
  ghost predicate ValidNodes(classes: map<string, ClassNode>, props: map<string, PropertyNode>)
  {
    ClassesKeyed(classes) && PropertiesKeyed(props) && ChildrenResolve(classes) &&
    PropertiesResolve(classes, props) && RangesResolve(classes, props)
  }

  /** Storing a class whose references resolve keeps the nodes valid. */
  lemma SetClassValid(classes: map<string, ClassNode>, props: map<string, PropertyNode>, node: ClassNode)
    requires ValidNodes(classes, props)
    requires forall c :: c in node.children ==> c in classes
    requires forall p :: p in node.properties ==> p in props
    ensures ValidNodes(classes[node.id := node], props)
  {
  }

  /** Storing a property whose range resolves keeps the nodes valid. */
  lemma SetPropertyValid(classes: map<string, ClassNode>, props: map<string, PropertyNode>, node: PropertyNode)
    requires ValidNodes(classes, props)
    requires node.range.Some? ==> forall c :: c in node.range.value ==> c in classes
    ensures ValidNodes(classes, props[node.id := node])
  {
  }

  /** Every child ranks below its parent: the subclass relation has no cycle. */
  ghost predicate ChildrenRanked(classes: map<string, ClassNode>, rank: string -> nat)
  {
    forall id, c :: id in classes && c in classes[id].children ==> rank(c) < rank(id)
  }

  /** Every class keeps its children or has none: no class gains a child. */
  ghost predicate ChildrenKept(before: map<string, ClassNode>, after: map<string, ClassNode>)
  {
    forall k :: k in after ==> after[k].children == [] || (k in before && after[k].children == before[k].children)
  }

  lemma KeptChildrenRanked(before: map<string, ClassNode>, after: map<string, ClassNode>, rank: string -> nat)
    requires ChildrenRanked(before, rank) && ChildrenKept(before, after)
    ensures ChildrenRanked(after, rank)
  {
  }

  /** Adding a lower-ranked child to a class keeps the ranking. */
  lemma AddChildRanked(classes: map<string, ClassNode>, rank: string -> nat, node: ClassNode, child: string)
    requires ChildrenRanked(classes, rank) && node.id in classes
    requires node.children == classes[node.id].children + [child] && rank(child) < rank(node.id)
    ensures ChildrenRanked(classes[node.id := node], rank)
  {
  }

  /** A subclass edge goes from a lower-ranked class to a higher-ranked base. */
  ghost predicate EdgeRanked(e: Edge, rank: string -> nat)
  {
    IsValidEdge(e) && EdgeKindOf(e.labelText) == SubClassOfEdge ==> rank(e.source.value.id) < rank(e.target.value.id)
  }

  class DigitalTwinGraph {
    var classNodes: map<string, ClassNode>
    var propertyNodes: map<string, PropertyNode>
    var contextNodes: map<string, ContextNode>
    var constraintNodes: map<string, Constraint>
    var reversedIndex: map<string, string>
    var contextVersions: map<string, int>
    var vocabulary: string

    /** Nodes are stored under their ids and every reference between nodes resolves. */
    ghost predicate Valid()
      reads this
    {
      ValidNodes(classNodes, propertyNodes)
    }

    /** An empty graph: no nodes, no vocabulary. */
    constructor()
      ensures Valid() && !Initialized()
      ensures classNodes == map[] && propertyNodes == map[] && contextNodes == map[] && constraintNodes == map[]
      ensures reversedIndex == map[] && contextVersions == map[] && vocabulary == ""
    {
      classNodes := map[];
      propertyNodes := map[];
      contextNodes := map[];
      constraintNodes := map[];
      reversedIndex := map[];
      contextVersions := map[];
      vocabulary := "";
    }

    /** `initialized`: a vocabulary has been read. */
    predicate Initialized()
      reads this
    {
      vocabulary != ""
    }

    /** `getId`: a name under the vocabulary. */
    function GetId(name: string): string
      reads this
    {
      vocabulary + name
    }

    /** The id a name stands for: its reversed-index entry when set and non-empty, else `fallback`. */
    function ResolveName(name: string, fallback: string): (id: string)
      reads this
      ensures name in reversedIndex && reversedIndex[name] != "" ==> id == reversedIndex[name]
      ensures !(name in reversedIndex && reversedIndex[name] != "") ==> id == fallback
    {
      if name in reversedIndex && reversedIndex[name] != "" then reversedIndex[name] else fallback
    }

    /** `getPropertyNode`: the property node of the name's id, the name itself serving as id when it has none. */
    function GetPropertyNode(name: string): (r: Option<PropertyNode>)
      reads this
      ensures r.Some? <==> ResolveName(name, name) in propertyNodes
      ensures r.Some? ==> r.value == propertyNodes[ResolveName(name, name)]
    {
      var id := ResolveName(name, name);
      if id in propertyNodes then Some(propertyNodes[id]) else None
    }

    /** `getClassNode`: the class node of the name's id, the name under the vocabulary serving as id when it has none. */
    function GetClassNode(name: string): (r: Option<ClassNode>)
      reads this
      ensures r.Some? <==> ResolveName(name, GetId(name)) in classNodes
      ensures r.Some? ==> r.value == classNodes[ResolveName(name, GetId(name))]
    {
      var id := ResolveName(name, GetId(name));
      if id in classNodes then Some(classNodes[id]) else None
    }

    /** `getVersion`: the version of a context value, 0 when it has none. */
    function GetVersion(context: string): (r: int)
      reads this
      ensures context !in contextVersions ==> r == 0
      ensures context in contextVersions ==> r == contextVersions[context]
    {
      if context in contextVersions then contextVersions[context] else 0
    }

    /**
     * `buildContext`: read the vocabulary, then give each key that is not
     * reserved a context node under its id (the vocabulary followed by the
     * term's id) and a reversed-index entry from the key to that id.
     */
    method BuildContext(vocab: string, terms: seq<(string, ContextTerm)>, isReservedName: string -> bool)
      modifies this
      ensures vocabulary == vocab
      ensures Initialized() <==> vocab != ""
      ensures contextNodes == ContextNodesOf(old(contextNodes), vocab, terms, isReservedName)
      ensures reversedIndex == ReversedIndexOf(old(reversedIndex), vocab, terms, isReservedName)
      ensures classNodes == old(classNodes) && propertyNodes == old(propertyNodes)
      ensures constraintNodes == old(constraintNodes) && contextVersions == old(contextVersions)
    {
      vocabulary := vocab;
      for i := 0 to |terms|
        invariant vocabulary == vocab
        invariant contextNodes == ContextNodesOf(old(contextNodes), vocab, terms[..i], isReservedName)
        invariant reversedIndex == ReversedIndexOf(old(reversedIndex), vocab, terms[..i], isReservedName)
        invariant classNodes == old(classNodes) && propertyNodes == old(propertyNodes)
        invariant constraintNodes == old(constraintNodes) && contextVersions == old(contextVersions)
      {
        assert terms[..i + 1][..i] == terms[..i];
        var (key, term) := terms[i];
        if !isReservedName(key) {
          var id := GetId(TermId(term));
          contextNodes := contextNodes[id := ContextNode(key, TermContainer(term))];
          reversedIndex := reversedIndex[key := id];
        }
      }
      assert terms[..|terms|] == terms;
    }

    /**
     * `buildConstraint`: each entry that is a constraint goes into the
     * constraint table under its key; the `@context` entry, when it is not
     * one, gives the version of each context value.
     */
    method BuildConstraint(entries: seq<(string, DefinitionEntry)>)
      modifies this
      ensures constraintNodes == ConstraintsOf(old(constraintNodes), entries)
      ensures contextVersions == VersionsOf(old(contextVersions), entries)
      ensures classNodes == old(classNodes) && propertyNodes == old(propertyNodes) && contextNodes == old(contextNodes)
      ensures reversedIndex == old(reversedIndex) && vocabulary == old(vocabulary)
    {
      for i := 0 to |entries|
        invariant constraintNodes == ConstraintsOf(old(constraintNodes), entries[..i])
        invariant contextVersions == VersionsOf(old(contextVersions), entries[..i])
        invariant classNodes == old(classNodes) && propertyNodes == old(propertyNodes) && contextNodes == old(contextNodes)
        invariant reversedIndex == old(reversedIndex) && vocabulary == old(vocabulary)
      {
        assert entries[..i + 1][..i] == entries[..i];
        var (key, entry) := entries[i];
        if IsConstraintNode(entry.fields) {
          constraintNodes := constraintNodes[key := entry.fields];
        } else if key == ContextKey {
          var versions := entry.members;
          for j := 0 to |versions|
            invariant contextVersions == VersionTable(VersionsOf(old(contextVersions), entries[..i]), versions[..j])
            invariant constraintNodes == ConstraintsOf(old(constraintNodes), entries[..i])
            invariant classNodes == old(classNodes) && propertyNodes == old(propertyNodes) && contextNodes == old(contextNodes)
            invariant reversedIndex == old(reversedIndex) && vocabulary == old(vocabulary)
          {
            assert versions[..j + 1][..j] == versions[..j];
            contextVersions := contextVersions[versions[j].1 := VersionOfKey(versions[j].0)];
          }
          assert versions[..|versions|] == versions;
        }
      }
      assert entries[..|entries|] == entries;
    }

    /**
     * `ensureClassNode`: the class node of the id, created when missing; a
     * node that exists is returned as it is and the map is left alone.
     */
    method EnsureClassNode(id: string) returns (node: ClassNode)
      requires Valid()
      modifies this
      ensures Valid()
      ensures ChildrenKept(old(classNodes), classNodes)
      ensures id in classNodes && node == classNodes[id]
      ensures old(id in classNodes) ==> classNodes == old(classNodes)
      ensures classNodes == WithClass(old(classNodes), contextNodes, constraintNodes, id)
      ensures propertyNodes == old(propertyNodes) && contextNodes == old(contextNodes) && constraintNodes == old(constraintNodes)
      ensures reversedIndex == old(reversedIndex) && contextVersions == old(contextVersions) && vocabulary == old(vocabulary)
    {
      if id in classNodes {
        node := classNodes[id];
      } else {
        node := NewClassNode(contextNodes, constraintNodes, id);
        SetClassValid(classNodes, propertyNodes, node);
        classNodes := classNodes[id := node];
      }
    }

    /**
     * `ensurePropertyNode`: the property node of the id, created when
     * missing; creating the node of a language map also makes sure of the
     * language class and labels it.
     */
    method EnsurePropertyNode(id: string) returns (node: PropertyNode)
      requires Valid()
      modifies this
      ensures Valid()
      ensures ChildrenKept(old(classNodes), classNodes)
      ensures id in propertyNodes && node == propertyNodes[id]
      ensures old(id in propertyNodes) ==> propertyNodes == old(propertyNodes) && classNodes == old(classNodes)
      ensures old(id !in propertyNodes) ==> propertyNodes == old(propertyNodes)[id := NewPropertyNode(contextNodes, constraintNodes, id)]
      ensures classNodes == PropertyClasses(old(classNodes), old(propertyNodes), contextNodes, constraintNodes, id)
      ensures contextNodes == old(contextNodes) && constraintNodes == old(constraintNodes)
      ensures reversedIndex == old(reversedIndex) && contextVersions == old(contextVersions) && vocabulary == old(vocabulary)
    {
      if id in propertyNodes {
        node := propertyNodes[id];
        return;
      }
      node := NewPropertyNode(contextNodes, constraintNodes, id);
      if id in contextNodes && contextNodes[id].container == LanguageContainer {
        var languageNode := EnsureClassNode(LanguageId);
        SetClassValid(classNodes, propertyNodes, languageNode.(labelText := LanguageId));
        classNodes := classNodes[LanguageId := languageNode.(labelText := LanguageId)];
      }
      SetPropertyValid(classNodes, propertyNodes, node);
      propertyNodes := propertyNodes[id := node];
    }

    /** The class map the rest of the fields keep, for the frame of the edge handlers. */
    twostate predicate OnlyNodesChanged()
      reads this
    {
      contextNodes == old(contextNodes) && constraintNodes == old(constraintNodes) &&
      reversedIndex == old(reversedIndex) && contextVersions == old(contextVersions) && vocabulary == old(vocabulary)
    }

    /**
     * `handleEdgeOfType`: a class or property type creates that node; any
     * other type marks the target as an enum class and appends the source's
     * short name (its id when it has none) to the target's enums.
     */
    method HandleEdgeOfType(id: string, type_: string)
      requires Valid()
      modifies this
      ensures Valid() && OnlyNodesChanged()
      ensures ChildrenKept(old(classNodes), classNodes)
      ensures type_ == ClassType ==> classNodes == WithClass(old(classNodes), contextNodes, constraintNodes, id) && propertyNodes == old(propertyNodes)
      ensures type_ == PropertyType ==>
        id in propertyNodes && classNodes == PropertyClasses(old(classNodes), old(propertyNodes), contextNodes, constraintNodes, id)
      ensures type_ != ClassType && type_ != PropertyType ==>
        var m := WithClass(old(classNodes), contextNodes, constraintNodes, type_);
        var value := if id in contextNodes then contextNodes[id].name else id;
        classNodes == m[type_ := m[type_].(enums := m[type_].enums + [value])] && propertyNodes == old(propertyNodes)
    {
      if type_ == ClassType {
        var _ := EnsureClassNode(id);
      } else if type_ == PropertyType {
        var _ := EnsurePropertyNode(id);
      } else {
        var enumValue := if id in contextNodes then contextNodes[id].name else id;
        var enumNode := EnsureClassNode(type_);
        SetClassValid(classNodes, propertyNodes, enumNode.(enums := enumNode.enums + [enumValue]));
        classNodes := classNodes[type_ := enumNode.(enums := enumNode.enums + [enumValue])];
      }
    }

    /**
     * `handleEdgeOfLabel`: a property node keeps the label it has; a class
     * node takes the label only when it has none, and with it the label's
     * constraint, if there is one.
     */
    method HandleEdgeOfLabel(id: string, labelText: string)
      requires Valid()
      modifies this
      ensures Valid() && OnlyNodesChanged() && propertyNodes == old(propertyNodes)
      ensures ChildrenKept(old(classNodes), classNodes)
      ensures id in old(propertyNodes) ==> classNodes == old(classNodes)
      ensures id !in old(propertyNodes) ==>
        var m := WithClass(old(classNodes), contextNodes, constraintNodes, id);
        classNodes == if m[id].labelText != "" then m
          else m[id := m[id].(labelText := labelText, constraint := if labelText in constraintNodes then Some(constraintNodes[labelText]) else m[id].constraint)]
    {
      if id in propertyNodes {
        return;
      }
      var classNode := EnsureClassNode(id);
      if classNode.labelText == "" {
        var constraint := if labelText in constraintNodes then Some(constraintNodes[labelText]) else classNode.constraint;
        SetClassValid(classNodes, propertyNodes, classNode.(labelText := labelText, constraint := constraint));
        classNodes := classNodes[id := classNode.(labelText := labelText, constraint := constraint)];
      }
    }

    /** `handleEdgeOfDomain`: the property is appended to the properties of its domain class. */
    method HandleEdgeOfDomain(id: string, classId: string)
      requires Valid()
      modifies this
      ensures Valid() && OnlyNodesChanged()
      ensures ChildrenKept(old(classNodes), classNodes)
      ensures id in propertyNodes && propertyNodes[id] == (if id in old(propertyNodes) then old(propertyNodes)[id] else NewPropertyNode(contextNodes, constraintNodes, id))
      ensures var m := WithClass(PropertyClasses(old(classNodes), old(propertyNodes), contextNodes, constraintNodes, id), contextNodes, constraintNodes, classId);
        classNodes == m[classId := m[classId].(properties := m[classId].properties + [id])]
    {
      var _ := EnsurePropertyNode(id);
      var classNode := EnsureClassNode(classId);
      SetClassValid(classNodes, propertyNodes, classNode.(properties := classNode.properties + [id]));
      classNodes := classNodes[classId := classNode.(properties := classNode.properties + [id])];
    }

    /** `handleEdgeOfRange`: the class is appended to the range of the property, which is created when unset. */
    method HandleEdgeOfRange(id: string, classId: string)
      requires Valid()
      modifies this
      ensures Valid() && OnlyNodesChanged()
      ensures ChildrenKept(old(classNodes), classNodes)
      ensures classId in classNodes
      ensures var p := if id in old(propertyNodes) then old(propertyNodes)[id] else NewPropertyNode(contextNodes, constraintNodes, id);
        propertyNodes == old(propertyNodes)[id := p.(range := Some(RangeOf(p) + [classId]))]
    {
      var propertyNode := EnsurePropertyNode(id);
      var _ := EnsureClassNode(classId);
      var range := RangeOf(propertyNode);
      SetPropertyValid(classNodes, propertyNodes, propertyNode.(range := Some(range + [classId])));
      propertyNodes := propertyNodes[id := propertyNode.(range := Some(range + [classId]))];
    }

    /** `handleEdgeOfSubClassOf`: the class is appended to the children of its base class. */
    method HandleEdgeOfSubClassOf(id: string, baseId: string, ghost rank: string -> nat)
      requires Valid() && ChildrenRanked(classNodes, rank) && rank(id) < rank(baseId)
      modifies this
      ensures Valid() && OnlyNodesChanged() && ChildrenRanked(classNodes, rank)
      ensures propertyNodes == old(propertyNodes)
      ensures var m := WithClass(WithClass(old(classNodes), contextNodes, constraintNodes, id), contextNodes, constraintNodes, baseId);
        classNodes == m[baseId := m[baseId].(children := m[baseId].children + [id])]
    {
      var _ := EnsureClassNode(id);
      var baseClassNode := EnsureClassNode(baseId);
      SetClassValid(classNodes, propertyNodes, baseClassNode.(children := baseClassNode.children + [id]));
      AddChildRanked(classNodes, rank, baseClassNode.(children := baseClassNode.children + [id]), id);
      classNodes := classNodes[baseId := baseClassNode.(children := baseClassNode.children + [id])];
    }

    /** `handleEdgeOfComment`: an existing property node takes the comment; anything else is left alone. */
    method HandleEdgeOfComment(id: string, comment: string)
      requires Valid()
      modifies this
      ensures Valid() && OnlyNodesChanged() && classNodes == old(classNodes)
      ensures ChildrenKept(old(classNodes), classNodes)
      ensures propertyNodes == if id in old(propertyNodes) then old(propertyNodes)[id := old(propertyNodes)[id].(comment := Some(comment))] else old(propertyNodes)
    {
      if id in propertyNodes {
        SetPropertyValid(classNodes, propertyNodes, propertyNodes[id].(comment := Some(comment)));
        propertyNodes := propertyNodes[id := propertyNodes[id].(comment := Some(comment))];
      }
    }

    /** `handleEdge`: dispatch on the edge's label; other labels are ignored. */
    method HandleEdge(e: Edge, ghost rank: string -> nat)
      requires Valid() && IsValidEdge(e) && ChildrenRanked(classNodes, rank) && EdgeRanked(e, rank)
      modifies this
      ensures Valid() && OnlyNodesChanged() && ChildrenRanked(classNodes, rank)
      ensures EdgeKindOf(e.labelText) == OtherEdge ==> classNodes == old(classNodes) && propertyNodes == old(propertyNodes)
    {
      var id := e.source.value.id;
      ghost var before := classNodes;
      match EdgeKindOf(e.labelText)
      case TypeEdge => HandleEdgeOfType(id, e.target.value.id);
      case LabelEdge => HandleEdgeOfLabel(id, e.target.value.value);
      case DomainEdge => HandleEdgeOfDomain(id, e.target.value.id);
      case RangeEdge => HandleEdgeOfRange(id, e.target.value.id);
      case SubClassOfEdge => HandleEdgeOfSubClassOf(id, e.target.value.id, rank);
      case CommentEdge => HandleEdgeOfComment(id, e.target.value.value);
      case OtherEdge =>
      if EdgeKindOf(e.labelText) != SubClassOfEdge {
        KeptChildrenRanked(before, classNodes, rank);
      }
    }

    /** `buildReservedProperty`: a fresh property node of the id ranging over one class, with the id's constraint. */
    method BuildReservedProperty(id: string, classId: string)
      requires Valid() && classId in classNodes
      modifies this
      ensures Valid() && OnlyNodesChanged() && classNodes == old(classNodes)
      ensures propertyNodes == old(propertyNodes)[id := PropertyNode(id, "", false, None, Some([classId]),
        if id in constraintNodes then Some(constraintNodes[id]) else None)]
    {
      var propertyNode := PropertyNode(id, "", false, None, Some([classId]),
        if id in constraintNodes then Some(constraintNodes[id]) else None);
      SetPropertyValid(classNodes, propertyNodes, propertyNode);
      propertyNodes := propertyNodes[id := propertyNode];
    }

    /** `markAbstractClass`: the class of the name, if there is one, becomes abstract. */
    method MarkAbstractClass(name: string)
      requires Valid()
      modifies this
      ensures Valid() && OnlyNodesChanged() && propertyNodes == old(propertyNodes)
      ensures ChildrenKept(old(classNodes), classNodes)
      ensures classNodes == if GetId(name) in old(classNodes)
        then old(classNodes)[GetId(name) := old(classNodes)[GetId(name)].(isAbstract := true)]
        else old(classNodes)
    {
      var id := GetId(name);
      if id in classNodes {
        SetClassValid(classNodes, propertyNodes, classNodes[id].(isAbstract := true));
        classNodes := classNodes[id := classNodes[id].(isAbstract := true)];
      }
    }

    /**
     * `handleInterfaceSchema`: the interface schema property, if there is
     * one, is labelled `schema`; when it has a range, the class is appended
     * to it and the property takes the constraint of `@id`, or none.
     */
    method HandleInterfaceSchema(classId: string)
      requires Valid() && classId in classNodes
      modifies this
      ensures Valid() && OnlyNodesChanged() && classNodes == old(classNodes)
      ensures var id := GetId(InterfaceSchemaNode);
        propertyNodes == if id !in old(propertyNodes) then old(propertyNodes)
          else var p := old(propertyNodes)[id].(labelText := SchemaLabel);
            old(propertyNodes)[id := if p.range.None? then p
              else p.(range := Some(p.range.value + [classId]),
                       constraint := if IdKey in constraintNodes then Some(constraintNodes[IdKey]) else None)]
    {
      var id := GetId(InterfaceSchemaNode);
      if id in propertyNodes {
        var propertyNode := propertyNodes[id].(labelText := SchemaLabel);
        if propertyNode.range.Some? {
          propertyNode := propertyNode.(range := Some(propertyNode.range.value + [classId]),
            constraint := if IdKey in constraintNodes then Some(constraintNodes[IdKey]) else None);
        }
        SetPropertyValid(classNodes, propertyNodes, propertyNode);
        propertyNodes := propertyNodes[id := propertyNode];
      }
    }

    /**
     * `adjustNode`: make sure of the string class, give `@id` a property
     * ranging over it, mark `Schema` and `Unit` abstract and complete the
     * interface schema property.
     */
    method AdjustNode()
      requires Valid()
      modifies this
      ensures Valid() && OnlyNodesChanged() && ChildrenKept(old(classNodes), classNodes)
      ensures StringSchema in classNodes && IdKey in propertyNodes
      ensures propertyNodes[IdKey].range == Some([StringSchema])
      ensures classNodes.Keys == old(classNodes).Keys + {StringSchema}
      ensures GetId(SchemaNode) in classNodes ==> classNodes[GetId(SchemaNode)].isAbstract
      ensures GetId(UnitNode) in classNodes ==> classNodes[GetId(UnitNode)].isAbstract
    {
      var _ := EnsureClassNode(StringSchema);
      BuildReservedProperty(IdKey, StringSchema);
      MarkAbstractClass(SchemaNode);
      MarkAbstractClass(UnitNode);
      HandleInterfaceSchema(StringSchema);
    }

    /**
     * `expandProperties`: a breadth-first walk of the subclass tree from the
     * base class, each class appending its properties to those of its
     * children that are not enums. Only properties change, and only by
     * growing; the returned set holds the classes walked, which takes in the
     * base class and every child that is not an enum of a class walked, and
     * each of them has the properties of every class it was reached from.
     * A subclass cycle would keep the source walking forever; the ranking
     * excludes it.
     */
    method ExpandProperties(ghost rank: string -> nat) returns (ghost reached: set<string>)
      requires Valid() && ChildrenRanked(classNodes, rank)
      modifies this
      ensures Valid() && OnlyNodesChanged() && propertyNodes == old(propertyNodes)
      ensures OnlyPropertiesChanged(old(classNodes), classNodes) && PropertiesGrew(old(classNodes), classNodes)
      ensures GetId(BaseClass) !in classNodes ==> classNodes == old(classNodes)
      ensures GetId(BaseClass) in classNodes ==> GetId(BaseClass) in reached
      ensures reached <= classNodes.Keys
      ensures forall x, c :: x in reached && NonEnumChild(classNodes, x, c) ==> c in reached && Inherits(classNodes, x, c)
    {
      var baseId := GetId(BaseClass);
      reached := {};
      if baseId in classNodes {
        var classes;
        classes, reached := WalkSubclasses(classNodes, propertyNodes, baseId, rank);
        classNodes := classes;
      }
    }

    /**
     * `init`, once the three definitions are read: build the context, the
     * constraints and then the graph.
     */
    method Init(vocab: string, terms: seq<(string, ContextTerm)>, isReservedName: string -> bool,
                entries: seq<(string, DefinitionEntry)>, edges: seq<Edge>, ghost rank: string -> nat)
      returns (ghost reached: set<string>)
      requires Valid() && ChildrenRanked(classNodes, rank)
      requires forall i :: 0 <= i < |edges| ==> EdgeRanked(edges[i], rank)
      modifies this
      ensures Valid() && vocabulary == vocab
      ensures contextNodes == ContextNodesOf(old(contextNodes), vocab, terms, isReservedName)
      ensures reversedIndex == ReversedIndexOf(old(reversedIndex), vocab, terms, isReservedName)
      ensures constraintNodes == ConstraintsOf(old(constraintNodes), entries)
      ensures contextVersions == VersionsOf(old(contextVersions), entries)
      ensures StringSchema in classNodes && IdKey in propertyNodes
      ensures GetId(BaseClass) in classNodes ==> GetId(BaseClass) in reached
      ensures forall x, c :: x in reached && NonEnumChild(classNodes, x, c) ==> c in reached && Inherits(classNodes, x, c)
    {
      BuildContext(vocab, terms, isReservedName);
      BuildConstraint(entries);
      reached := BuildGraph(edges, rank);
    }

    /** `buildEntryNode`: when both the interface and the capability model classes exist, the entry property ranges over the two. */
    method BuildEntryNode()
      requires Valid()
      modifies this
      ensures Valid() && OnlyNodesChanged() && classNodes == old(classNodes)
      ensures var interface, model := GetId(InterfaceNode), GetId(CapabilityModelNode);
        propertyNodes == if interface in classNodes && model in classNodes
          then old(propertyNodes)[EntryNodeId := PropertyNode(EntryNodeId, "", false, None, Some([interface, model]), None)]
          else old(propertyNodes)
    {
      var interface, model := GetId(InterfaceNode), GetId(CapabilityModelNode);
      if interface in classNodes && model in classNodes {
        var entryNode := PropertyNode(EntryNodeId, "", false, None, Some([interface, model]), None);
        SetPropertyValid(classNodes, propertyNodes, entryNode);
        propertyNodes := propertyNodes[EntryNodeId := entryNode];
      }
    }

    /**
     * `buildGraph`: handle every valid edge in order, then adjust the nodes,
     * expand the properties and build the entry node. Subclass edges must
     * follow a ranking, that is, describe no cycle.
     */
    method BuildGraph(edges: seq<Edge>, ghost rank: string -> nat) returns (ghost reached: set<string>)
      requires Valid() && ChildrenRanked(classNodes, rank)
      requires forall i :: 0 <= i < |edges| ==> EdgeRanked(edges[i], rank)
      modifies this
      ensures Valid() && OnlyNodesChanged()
      ensures StringSchema in classNodes && IdKey in propertyNodes
      ensures GetId(BaseClass) in classNodes ==> GetId(BaseClass) in reached
      ensures forall x, c :: x in reached && NonEnumChild(classNodes, x, c) ==> c in reached && Inherits(classNodes, x, c)
      ensures GetId(InterfaceNode) in classNodes && GetId(CapabilityModelNode) in classNodes ==>
        EntryNodeId in propertyNodes && propertyNodes[EntryNodeId].range == Some([GetId(InterfaceNode), GetId(CapabilityModelNode)])
    {
      for i := 0 to |edges|
        invariant Valid() && OnlyNodesChanged() && ChildrenRanked(classNodes, rank)
      {
        if IsValidEdge(edges[i]) {
          HandleEdge(edges[i], rank);
        }
      }
      ghost var before := classNodes;
      AdjustNode();
      KeptChildrenRanked(before, classNodes, rank);
      reached := ExpandProperties(rank);
      BuildEntryNode();
    }
  }

  // ----- the expansion of properties ---------------------------------------------------------

  /** Only the properties of classes differ between the two maps. */
  ghost predicate OnlyPropertiesChanged(before: map<string, ClassNode>, after: map<string, ClassNode>)
  {
    before.Keys == after.Keys && forall k :: k in after ==> after[k] == before[k].(properties := after[k].properties)
  }

  /** The properties of every class only grow at the end. */
  ghost predicate PropertiesGrew(before: map<string, ClassNode>, after: map<string, ClassNode>)
  {
    forall k :: k in before && k in after ==> before[k].properties <= after[k].properties
  }

  /** An enum class: one with enum values. */
  predicate IsEnum(classes: map<string, ClassNode>, c: string)
  {
    c in classes && classes[c].enums != []
  }

  /** `c` is a child of `x` that the expansion descends to. */
  predicate NonEnumChild(classes: map<string, ClassNode>, x: string, c: string)
  {
    x in classes && c in classes[x].children && !IsEnum(classes, c)
  }

  /** Class `c` has every property of class `x`. */
  predicate Inherits(classes: map<string, ClassNode>, x: string, c: string)
  {
    x in classes && c in classes && forall p :: p in classes[x].properties ==> p in classes[c].properties
  }

  /** Every class outside `pushed` is as it was. */
  ghost predicate UntouchedExcept(before: map<string, ClassNode>, after: map<string, ClassNode>, pushed: seq<string>)
  {
    forall k :: k in after && k !in pushed ==> k in before && after[k] == before[k]
  }

  /** Every class in `pushed` has all the properties of `x`. */
  ghost predicate InheritAll(classes: map<string, ClassNode>, x: string, pushed: seq<string>)
  {
    forall c :: c in pushed ==> Inherits(classes, x, c)
  }

  /** The children of the list that are not enums, in order. */
  function NonEnum(classes: map<string, ClassNode>, list: seq<string>): (r: seq<string>)
    ensures forall c :: c in r <==> c in list && !IsEnum(classes, c)
  {
    if list == [] then []
    else NonEnum(classes, list[..|list| - 1]) + (if IsEnum(classes, list[|list| - 1]) then [] else [list[|list| - 1]])
  }

  /** Every non-enum child of a walked class is walked, queued or current. */
  ghost predicate Reaching(classes: map<string, ClassNode>, reached: set<string>, queue: seq<string>, current: Option<string>)
  {
    forall x, c :: x in reached && NonEnumChild(classes, x, c) ==> c in reached || c in queue || current == Some(c)
  }

  /** A walked class that is neither queued nor current has passed its properties to its non-enum children. */
  ghost predicate Inheriting(classes: map<string, ClassNode>, reached: set<string>, queue: seq<string>, current: Option<string>)
  {
    forall x, c :: x in reached && x !in queue && current != Some(x) && NonEnumChild(classes, x, c) ==> Inherits(classes, x, c)
  }

  /** Appending properties to a class and queueing it keeps the walk's invariants. */
  lemma AppendKeepsWalk(classes: map<string, ClassNode>, reached: set<string>, queue: seq<string>, current: Option<string>,
                        child: string, extra: seq<string>)
    requires child in classes
    requires Reaching(classes, reached, queue, current) && Inheriting(classes, reached, queue, current)
    ensures var after := classes[child := classes[child].(properties := classes[child].properties + extra)];
      Reaching(after, reached, queue + [child], current) && Inheriting(after, reached, queue + [child], current)
  {
    var after := classes[child := classes[child].(properties := classes[child].properties + extra)];
    forall x, c | x in reached && x !in queue + [child] && current != Some(x) && NonEnumChild(after, x, c)
      ensures Inherits(after, x, c)
    {
      assert NonEnumChild(classes, x, c);
    }
  }

  /**
   * The loop of `expandProperties` over the class map: walk breadth-first
   * from the base class, serving each class's properties to its non-enum
   * children and queueing them.
   */
  method WalkSubclasses(classes0: map<string, ClassNode>, ghost props: map<string, PropertyNode>, baseId: string, ghost rank: string -> nat)
    returns (classes: map<string, ClassNode>, ghost reached: set<string>)
    requires ValidNodes(classes0, props) && ChildrenRanked(classes0, rank) && baseId in classes0
    ensures ValidNodes(classes, props) && ChildrenRanked(classes, rank)
    ensures OnlyPropertiesChanged(classes0, classes) && PropertiesGrew(classes0, classes)
    ensures baseId in reached && reached <= classes.Keys
    ensures forall x, c :: x in reached && NonEnumChild(classes, x, c) ==> c in reached && Inherits(classes, x, c)
  {
    classes := classes0;
    reached := {};
    var current: Option<string> := Some(baseId);
    var queue: seq<string> := [];
    while current.Some?
      invariant Walk(classes0, props, rank, classes, reached, queue, current, baseId)
      invariant current.None? ==> queue == []
      decreases WalkWeight(classes0, rank, queue, current)
    {
      var x := current.value;
      var after, pushed := PassProperties(classes, props, x, rank);
      WalkStep(classes0, props, rank, classes, reached, queue, x, baseId, after, pushed);
      classes := after;
      reached := reached + {x};
      queue := queue + pushed;
      if queue == [] {
        current := None;
      } else {
        WalkShift(classes0, props, rank, classes, reached, queue, baseId);
        current := Some(queue[0]);
        queue := queue[1..];
      }
    }
  }

  /**
   * One step of `expandProperties`: each child of class `x` that is not an
   * enum gets the properties of `x` appended, and the children so served
   * are returned in order, for the queue.
   */
  method PassProperties(classes: map<string, ClassNode>, ghost props: map<string, PropertyNode>, x: string, ghost rank: string -> nat)
    returns (after: map<string, ClassNode>, pushed: seq<string>)
    requires ValidNodes(classes, props) && x in classes && ChildrenRanked(classes, rank)
    ensures ValidNodes(after, props) && ChildrenRanked(after, rank)
    ensures OnlyPropertiesChanged(classes, after) && PropertiesGrew(classes, after)
    ensures pushed == NonEnum(classes, classes[x].children)
    ensures UntouchedExcept(classes, after, pushed)
    ensures InheritAll(after, x, pushed)
  {
    var node := classes[x];
    after := classes;
    pushed := [];
    for j := 0 to |node.children|
      invariant ValidNodes(after, props)
      invariant OnlyPropertiesChanged(classes, after) && PropertiesGrew(classes, after)
      invariant pushed == NonEnum(classes, node.children[..j])
      invariant x in after && after[x] == node
      invariant UntouchedExcept(classes, after, pushed)
      invariant InheritAll(after, x, pushed)
    {
      var child := node.children[j];
      NonEnumStep(classes, node.children, j);
      ChildFacts(classes, after, x, j, rank);
      if after[child].enums == [] {
        ServeChild(classes, after, props, x, pushed, child);
        after := after[child := after[child].(properties := after[child].properties + node.properties)];
        pushed := pushed + [child];
      }
    }
    assert node.children[..|node.children|] == node.children;
    RankedKept(classes, after, rank);
  }

  /** The non-enum children of one more element of the list. */
  lemma NonEnumStep(classes: map<string, ClassNode>, list: seq<string>, j: nat)
    requires j < |list|
    ensures NonEnum(classes, list[..j + 1]) ==
      NonEnum(classes, list[..j]) + (if IsEnum(classes, list[j]) then [] else [list[j]])
  {
    assert list[..j + 1][..j] == list[..j];
  }

  /** A child of `x` is a known class other than `x`, and an enum exactly when it was one before. */
  lemma ChildFacts(classes: map<string, ClassNode>, after: map<string, ClassNode>, x: string, j: nat, rank: string -> nat)
    requires x in classes && j < |classes[x].children|
    requires ChildrenRanked(classes, rank) && ChildrenResolve(classes) && OnlyPropertiesChanged(classes, after)
    ensures var child := classes[x].children[j];
      child in after && child != x && (IsEnum(classes, child) <==> after[child].enums != [])
  {
    var child := classes[x].children[j];
    assert rank(child) < rank(x);
    assert after[child].enums == classes[child].enums;
  }

  /** Serving one more child keeps the invariants of `PassProperties`. */
  lemma ServeChild(classes: map<string, ClassNode>, after: map<string, ClassNode>, props: map<string, PropertyNode>,
                   x: string, pushed: seq<string>, child: string)
    requires ValidNodes(after, props) && OnlyPropertiesChanged(classes, after) && PropertiesGrew(classes, after)
    requires x in after && child in after && child != x
    requires UntouchedExcept(classes, after, pushed)
    requires InheritAll(after, x, pushed)
    ensures var next := after[child := after[child].(properties := after[child].properties + after[x].properties)];
      ValidNodes(next, props) && OnlyPropertiesChanged(classes, next) && PropertiesGrew(classes, next) &&
      next[x] == after[x] && UntouchedExcept(classes, next, pushed + [child]) &&
      InheritAll(next, x, pushed + [child])
  {
    var next := after[child := after[child].(properties := after[child].properties + after[x].properties)];
    SetClassValid(after, props, next[child]);
    forall k | k in classes && k in next
      ensures classes[k].properties <= next[k].properties
    {
      if k == child {
        assert classes[k].properties <= after[k].properties;
      }
    }
    forall c | c in pushed + [child]
      ensures Inherits(next, x, c)
    {
      if c != child {
        assert Inherits(after, x, c);
      }
    }
  }

  /** Classes that differ only in their properties are ranked alike. */
  lemma RankedKept(before: map<string, ClassNode>, after: map<string, ClassNode>, rank: string -> nat)
    requires ChildrenRanked(before, rank) && OnlyPropertiesChanged(before, after)
    ensures ChildrenRanked(after, rank)
  {
    forall id, c | id in after && c in after[id].children
      ensures rank(c) < rank(id)
    {
      assert after[id].children == before[id].children;
    }
  }

  /** Classes that differ only in their properties have the same enums. */
  lemma {:induction false} SameEnums(a: map<string, ClassNode>, b: map<string, ClassNode>, list: seq<string>)
    requires OnlyPropertiesChanged(a, b)
    ensures NonEnum(a, list) == NonEnum(b, list)
  {
    if list != [] {
      SameEnums(a, b, list[..|list| - 1]);
      var c := list[|list| - 1];
      if c in a {
        assert b[c].enums == a[c].enums;
      }
    }
  }

  /**
   * A step of the walk keeps its invariants: the class is walked, its
   * non-enum children join the queue, and the classes it did not serve are
   * untouched while those it served only gained properties.
   */
  lemma PassKeepsWalk(before: map<string, ClassNode>, after: map<string, ClassNode>, reached: set<string>,
                      queue: seq<string>, x: string, pushed: seq<string>)
    requires x in before && OnlyPropertiesChanged(before, after) && PropertiesGrew(before, after)
    requires pushed == NonEnum(before, before[x].children)
    requires UntouchedExcept(before, after, pushed)
    requires InheritAll(after, x, pushed)
    requires Reaching(before, reached, queue, Some(x)) && Inheriting(before, reached, queue, Some(x))
    ensures Reaching(after, reached + {x}, queue + pushed, None)
    ensures Inheriting(after, reached + {x}, queue + pushed, None)
  {
    forall y, c | y in reached + {x} && NonEnumChild(after, y, c)
      ensures NonEnumChild(before, y, c)
    {
      assert after[y].children == before[y].children;
      if c in before {
        assert after[c].enums == before[c].enums;
      }
    }
    forall y, c | y in reached + {x} && y !in queue + pushed && NonEnumChild(after, y, c)
      ensures Inherits(after, y, c)
    {
      if y != x {
        assert Inherits(before, y, c);
        assert before[c].properties <= after[c].properties;
      }
    }
  }

  /** The invariant of the walk of `expandProperties` over the classes `classes0` it started from. */
  ghost predicate Walk(classes0: map<string, ClassNode>, props: map<string, PropertyNode>, rank: string -> nat,
                       classes: map<string, ClassNode>, reached: set<string>, queue: seq<string>, current: Option<string>, baseId: string)
  {
    ValidNodes(classes, props) && ChildrenRanked(classes0, rank) && ChildrenRanked(classes, rank) &&
    OnlyPropertiesChanged(classes0, classes) && PropertiesGrew(classes0, classes) &&
    (current.Some? ==> current.value in classes) &&
    (forall c :: c in queue ==> c in classes) && reached <= classes.Keys &&
    (baseId in reached || baseId in queue || current == Some(baseId)) &&
    Reaching(classes, reached, queue, current) && Inheriting(classes, reached, queue, current)
  }

  /** What is left of the walk: the weights of the current class and of the queue. */
  ghost function WalkWeight(classes0: map<string, ClassNode>, rank: string -> nat, queue: seq<string>, current: Option<string>): nat
    requires ChildrenRanked(classes0, rank)
  {
    OptionWeight(classes0, rank, current) + QueueWeight(classes0, rank, queue)
  }

  /** Serving the current class keeps the invariant, with its non-enum children queued, and lowers the weight. */
  lemma WalkStep(classes0: map<string, ClassNode>, props: map<string, PropertyNode>, rank: string -> nat,
                 classes: map<string, ClassNode>, reached: set<string>, queue: seq<string>, x: string, baseId: string,
                 after: map<string, ClassNode>, pushed: seq<string>)
    requires Walk(classes0, props, rank, classes, reached, queue, Some(x), baseId)
    requires ValidNodes(after, props) && ChildrenRanked(after, rank)
    requires OnlyPropertiesChanged(classes, after) && PropertiesGrew(classes, after)
    requires pushed == NonEnum(classes, classes[x].children)
    requires UntouchedExcept(classes, after, pushed)
    requires InheritAll(after, x, pushed)
    ensures Walk(classes0, props, rank, after, reached + {x}, queue + pushed, None, baseId)
    ensures WalkWeight(classes0, rank, queue + pushed, None) < WalkWeight(classes0, rank, queue, Some(x))
  {
    PassKeepsWalk(classes, after, reached, queue, x, pushed);
    SameEnums(classes0, classes, classes[x].children);
    ExpandStep(classes0, rank, x, queue, queue + pushed);
    assert forall c :: c in pushed ==> c in classes[x].children;
  }

  /** Taking the next class from the queue keeps the invariant and the weight. */
  lemma WalkShift(classes0: map<string, ClassNode>, props: map<string, PropertyNode>, rank: string -> nat,
                  classes: map<string, ClassNode>, reached: set<string>, queue: seq<string>, baseId: string)
    requires Walk(classes0, props, rank, classes, reached, queue, None, baseId) && queue != []
    ensures Walk(classes0, props, rank, classes, reached, queue[1..], Some(queue[0]), baseId)
    ensures WalkWeight(classes0, rank, queue[1..], Some(queue[0])) == WalkWeight(classes0, rank, queue, None)
  {
    assert forall y :: y in queue ==> y == queue[0] || y in queue[1..];
  }

  /**
   * The weight of a class: one for itself and the weights of its non-enum
   * children; a walk step trades the weight of one class for those of its
   * children, so the total weight of the walk goes down.
   */
  ghost function Weight(classes: map<string, ClassNode>, rank: string -> nat, id: string): nat
    requires ChildrenRanked(classes, rank)
    decreases rank(id), 1
  {
    if id in classes then 1 + WeightBelow(classes, rank, NonEnum(classes, classes[id].children), rank(id)) else 1
  }

  ghost function WeightBelow(classes: map<string, ClassNode>, rank: string -> nat, q: seq<string>, bound: nat): nat
    requires ChildrenRanked(classes, rank) && forall c :: c in q ==> rank(c) < bound
    decreases bound, 0, |q|
  {
    if q == [] then 0 else Weight(classes, rank, q[0]) + WeightBelow(classes, rank, q[1..], bound)
  }

  ghost function QueueWeight(classes: map<string, ClassNode>, rank: string -> nat, q: seq<string>): nat
    requires ChildrenRanked(classes, rank)
  {
    if q == [] then 0 else Weight(classes, rank, q[0]) + QueueWeight(classes, rank, q[1..])
  }

  ghost function OptionWeight(classes: map<string, ClassNode>, rank: string -> nat, current: Option<string>): nat
    requires ChildrenRanked(classes, rank)
  {
    if current.Some? then Weight(classes, rank, current.value) else 0
  }

  lemma {:induction false} WeightBelowIsQueueWeight(classes: map<string, ClassNode>, rank: string -> nat, q: seq<string>, bound: nat)
    requires ChildrenRanked(classes, rank) && forall c :: c in q ==> rank(c) < bound
    ensures WeightBelow(classes, rank, q, bound) == QueueWeight(classes, rank, q)
  {
    if q != [] {
      WeightBelowIsQueueWeight(classes, rank, q[1..], bound);
    }
  }

  lemma {:induction false} QueueWeightAppend(classes: map<string, ClassNode>, rank: string -> nat, a: seq<string>, b: seq<string>)
    requires ChildrenRanked(classes, rank)
    ensures QueueWeight(classes, rank, a + b) == QueueWeight(classes, rank, a) + QueueWeight(classes, rank, b)
  {
    if a != [] {
      assert (a + b)[1..] == a[1..] + b;
      QueueWeightAppend(classes, rank, a[1..], b);
    } else {
      assert a + b == b;
    }
  }

  /** One walk step: the class leaves, its non-enum children join the queue, and the weight drops by one. */
  lemma ExpandStep(classes: map<string, ClassNode>, rank: string -> nat, x: string, queue0: seq<string>, queue: seq<string>)
    requires ChildrenRanked(classes, rank) && x in classes
    requires queue == queue0 + NonEnum(classes, classes[x].children)
    ensures Weight(classes, rank, x) + QueueWeight(classes, rank, queue0) == 1 + QueueWeight(classes, rank, queue)
  {
    WeightBelowIsQueueWeight(classes, rank, NonEnum(classes, classes[x].children), rank(x));
    QueueWeightAppend(classes, rank, queue0, NonEnum(classes, classes[x].children));
  }

  /** A path of non-enum subclass links. */
  predicate SubclassPath(classes: map<string, ClassNode>, path: seq<string>)
  {
    forall i :: 0 < i < |path| ==> NonEnumChild(classes, path[i - 1], path[i])
  }

  /**
   * After the walk, a class at the end of a path of non-enum subclass links
   * from a walked class (the base class, say) has every property of the
   * class at its start.
   */
  lemma {:induction false} InheritsAlongPath(classes: map<string, ClassNode>, reached: set<string>, path: seq<string>)
    requires forall x, c :: x in reached && NonEnumChild(classes, x, c) ==> c in reached && Inherits(classes, x, c)
    requires |path| > 1 && path[0] in reached && SubclassPath(classes, path)
    ensures path[|path| - 1] in reached && Inherits(classes, path[0], path[|path| - 1])
  {
    var n := |path| - 1;
    if n > 1 {
      InheritsAlongPath(classes, reached, path[..n]);
      assert NonEnumChild(classes, path[n - 1], path[n]);
    } else {
      assert NonEnumChild(classes, path[0], path[1]);
    }
  }

  /** The range of a property node, empty when unset. */
  function RangeOf(p: PropertyNode): seq<string>
  {
    match p.range
    case Some(r) => r
    case None => []
  }

  /** The id part of a context term. */
  function TermId(term: ContextTerm): string
  {
    match term
    case IdTerm(iri) => iri
    case ObjectTerm(id, _) => id
  }

  function TermContainer(term: ContextTerm): Container
  {
    match term
    case IdTerm(_) => NoContainer
    case ObjectTerm(_, container) => ResolveContainerType(container)
  }

  /** The context nodes after reading the terms in order. */
  function ContextNodesOf(nodes: map<string, ContextNode>, vocab: string, terms: seq<(string, ContextTerm)>,
                          isReservedName: string -> bool): map<string, ContextNode>
  {
    if terms == [] then nodes
    else
      var before := ContextNodesOf(nodes, vocab, terms[..|terms| - 1], isReservedName);
      var (key, term) := terms[|terms| - 1];
      if isReservedName(key) then before else before[vocab + TermId(term) := ContextNode(key, TermContainer(term))]
  }

  /** The reversed index after reading the terms in order. */
  function ReversedIndexOf(index: map<string, string>, vocab: string, terms: seq<(string, ContextTerm)>,
                           isReservedName: string -> bool): map<string, string>
  {
    if terms == [] then index
    else
      var before := ReversedIndexOf(index, vocab, terms[..|terms| - 1], isReservedName);
      var (key, term) := terms[|terms| - 1];
      if isReservedName(key) then before else before[key := vocab + TermId(term)]
  }

  /**
   * After the context is read, the keys of the reversed index are the keys
   * it had and the keys of the context that are not reserved.
   */
  lemma {:induction false} ReversedIndexKeys(index: map<string, string>, vocab: string, terms: seq<(string, ContextTerm)>,
                                             isReservedName: string -> bool, key: string)
    ensures key in ReversedIndexOf(index, vocab, terms, isReservedName) <==>
      key in index || exists i :: 0 <= i < |terms| && terms[i].0 == key && !isReservedName(key)
  {
    if terms != [] {
      var n := |terms| - 1;
      ReversedIndexKeys(index, vocab, terms[..n], isReservedName, key);
      if exists i :: 0 <= i < n && terms[i].0 == key && !isReservedName(key) {
        var i :| 0 <= i < n && terms[i].0 == key && !isReservedName(key);
        assert terms[..n][i] == terms[i];
      }
      if exists i :: 0 <= i < n && terms[..n][i].0 == key && !isReservedName(key) {
        var i :| 0 <= i < n && terms[..n][i].0 == key && !isReservedName(key);
        assert terms[..n][i] == terms[i];
      }
    }
  }

  /**
   * A key that is not reserved ends up naming the id of its last term, and
   * the context node under that id is named by the key, unless a later key
   * has a term with the same id.
   */
  lemma {:induction false} LastTermWins(nodes: map<string, ContextNode>, index: map<string, string>, vocab: string,
                                        terms: seq<(string, ContextTerm)>, isReservedName: string -> bool, i: nat)
    requires i < |terms| && !isReservedName(terms[i].0)
    requires forall j :: i < j < |terms| ==> terms[j].0 != terms[i].0
    ensures var r := ReversedIndexOf(index, vocab, terms, isReservedName);
      terms[i].0 in r && r[terms[i].0] == vocab + TermId(terms[i].1)
    ensures (forall j :: i < j < |terms| && !isReservedName(terms[j].0) ==> TermId(terms[j].1) != TermId(terms[i].1)) ==>
      var c := ContextNodesOf(nodes, vocab, terms, isReservedName);
      vocab + TermId(terms[i].1) in c && c[vocab + TermId(terms[i].1)] == ContextNode(terms[i].0, TermContainer(terms[i].1))
  {
    var n := |terms| - 1;
    if i < n {
      assert forall j :: 0 <= j < n ==> terms[..n][j] == terms[j];
      LastTermWins(nodes, index, vocab, terms[..n], isReservedName, i);
      if !isReservedName(terms[n].0) && TermId(terms[n].1) != TermId(terms[i].1) {
        var a, b := TermId(terms[n].1), TermId(terms[i].1);
        assert (vocab + a)[|vocab|..] == a && (vocab + b)[|vocab|..] == b;
      }
    }
  }

  /** The constraint table after reading the entries. */
  function ConstraintsOf(table: map<string, Constraint>, entries: seq<(string, DefinitionEntry)>): map<string, Constraint>
  {
    if entries == [] then table
    else
      var before := ConstraintsOf(table, entries[..|entries| - 1]);
      var (key, entry) := entries[|entries| - 1];
      if IsConstraintNode(entry.fields) then before[key := entry.fields] else before
  }

  /** The version table after the version pairs of one `@context` entry. */
  function VersionTable(table: map<string, int>, versions: seq<(string, string)>): map<string, int>
  {
    if versions == [] then table
    else
      var before := VersionTable(table, versions[..|versions| - 1]);
      var (vKey, context) := versions[|versions| - 1];
      before[context := VersionOfKey(vKey)]
  }

  /** The version table after reading the entries: only an `@context` entry that is not a constraint counts. */
  function VersionsOf(table: map<string, int>, entries: seq<(string, DefinitionEntry)>): map<string, int>
  {
    if entries == [] then table
    else
      var before := VersionsOf(table, entries[..|entries| - 1]);
      var (key, entry) := entries[|entries| - 1];
      if !IsConstraintNode(entry.fields) && key == ContextKey then VersionTable(before, entry.members) else before
  }

  /** Entries that are constraints never touch the version table. */
  lemma {:induction false} ConstraintsKeepVersions(table: map<string, int>, entries: seq<(string, DefinitionEntry)>)
    requires forall i :: 0 <= i < |entries| ==> IsConstraintNode(entries[i].1.fields) || entries[i].0 != ContextKey
    ensures VersionsOf(table, entries) == table
  {
    if entries != [] {
      ConstraintsKeepVersions(table, entries[..|entries| - 1]);
    }
  }

  /** The class map after `ensurePropertyNode(id)`: the language class is made sure of, and labelled, for a new language map. */
  function PropertyClasses(classes: map<string, ClassNode>, props: map<string, PropertyNode>,
                           contextNodes: map<string, ContextNode>, constraints: map<string, Constraint>, id: string): map<string, ClassNode>
  {
    if id !in props && id in contextNodes && contextNodes[id].container == LanguageContainer then
      var m := WithClass(classes, contextNodes, constraints, LanguageId);
      m[LanguageId := m[LanguageId].(labelText := LanguageId)]
    else classes
  }
}
