/**
 * The meta-model graph queries of src/DigitalTwin/DigitalTwinMetaModelGraph.ts
 * (`DigitalTwinMetaModelParser`) and src/pnp/PnPMetaModelGraph.ts
 * (`PnPMetaModelParser`). The meta-model is an edge list of RDF triples
 * (domain, subClassOf, range, type, comment) together with a JSON-LD
 * `@context` that maps short names to ids under a vocabulary prefix.
 *
 * The queries are first given as functions of the edges and the context;
 * the class `MetaModelParser` then runs the source's edge scans, with the
 * caches the Digital Twin parser keeps, and each of its methods is proved to
 * answer what the function says, the cached answers included.
 */
module MetaModelGraph {
  import opened Wrappers
  import opened Strings

  const DomainLabel := "http://www.w3.org/2000/01/rdf-schema#domain"
  const SubClassLabel := "http://www.w3.org/2000/01/rdf-schema#subClassOf"
  const RangeLabel := "http://www.w3.org/2000/01/rdf-schema#range"
  const TypeLabel := "http://www.w3.org/1999/02/22-rdf-syntax-ns#type"
  const CommentLabel := "http://www.w3.org/2000/01/rdf-schema#comment"

  datatype GraphNode = GraphNode(id: string, value: Option<string>)

  datatype GraphEdge = GraphEdge(source: GraphNode, target: GraphNode, relation: string)

  /** The two parsers differ in a few fallbacks and in which answers they cache. */
  datatype Variant = DigitalTwin | PnP

  /** A term of a JSON-LD `@context`: a plain string, or an object carrying `@id`. */
  datatype Term = Alias(path: string) | Definition(id: string)
  {
    /** The path the term names (`typeof item === 'string' ? item : item['@id']`). */
    function Path(): string
    {
      if Alias? then path else id
    }
  }

  /** The `@context`: its `@vocab` prefix and its other terms in key order. */
  datatype Context = Context(vocab: string, terms: seq<(string, Term)>)

  // ----- the context --------------------------------------------------------

  /** The term stored under a key (`hasOwnProperty` and the property read), if any. */
  function Lookup(terms: seq<(string, Term)>, key: string): (r: Option<Term>)
    ensures r.None? <==> forall i :: 0 <= i < |terms| ==> terms[i].0 != key
    ensures r.Some? ==> exists i :: 0 <= i < |terms| && terms[i] == (key, r.value)
  {
    if |terms| == 0 then None
    else if terms[0].0 == key then Some(terms[0].1)
    else
      var r := Lookup(terms[1..], key);
      assert forall i :: 1 <= i < |terms| ==> terms[i] == terms[1..][i - 1];
      r
  }

  /**
   * `getIdFromShortName`: the vocabulary followed by the term's path. For an
   * unknown short name the Digital Twin parser answers null and the PnP
   * parser the short name itself.
   */
  function IdFromShortName(variant: Variant, ctx: Context, shortName: string): (r: Option<string>)
    ensures Lookup(ctx.terms, shortName).Some? ==>
      r == Some(ctx.vocab + Lookup(ctx.terms, shortName).value.Path())
    ensures Lookup(ctx.terms, shortName).None? ==>
      r == if variant == DigitalTwin then None else Some(shortName)
  {
    match Lookup(ctx.terms, shortName)
    case Some(term) => Some(ctx.vocab + term.Path())
    case None => if variant == DigitalTwin then None else Some(shortName)
  }

  /** `getIdFromLabel`: the vocabulary followed by the label. */
  function IdFromLabel(ctx: Context, labelText: string): string
  {
    ctx.vocab + labelText
  }

  /**
   * `getIdFromType`: the id of the label a type's term names, or of the type
   * itself when it has no term or the term's path is empty.
   */
  function IdFromType(ctx: Context, type_: string): (r: string)
    ensures StartsWith(r, ctx.vocab)
    ensures Lookup(ctx.terms, type_).None? ==> r == ctx.vocab + type_
  {
    var term := Lookup(ctx.terms, type_);
    var labelText := if term.Some? && term.value.Path() != "" then term.value.Path() else type_;
    assert (ctx.vocab + labelText)[..|ctx.vocab|] == ctx.vocab;
    IdFromLabel(ctx, labelText)
  }

  /**
   * `getLabelFromId`: the id with the vocabulary prefix removed when it
   * starts with it. The Digital Twin parser keeps the whole id when nothing
   * would be left; the PnP parser then answers the empty string.
   */
  function LabelFromId(variant: Variant, ctx: Context, id: string): (r: string)
    ensures StartsWith(id, ctx.vocab) && (variant == PnP || |id| > |ctx.vocab|) ==> ctx.vocab + r == id
    ensures !(StartsWith(id, ctx.vocab) && (variant == PnP || |id| > |ctx.vocab|)) ==> r == id
  {
    if StartsWith(id, ctx.vocab) && (variant == PnP || |id| > |ctx.vocab|) then
      assert id == id[..|ctx.vocab|] + id[|ctx.vocab|..];
      id[|ctx.vocab|..]
    else id
  }

  /** The label of the id of a label is that label, except an empty label under the Digital Twin rule. */
  lemma LabelOfIdFromLabel(variant: Variant, ctx: Context, labelText: string)
    requires variant == PnP || labelText != ""
    ensures LabelFromId(variant, ctx, IdFromLabel(ctx, labelText)) == labelText
  {
    var id := IdFromLabel(ctx, labelText);
    assert id[..|ctx.vocab|] == ctx.vocab;
    assert id[|ctx.vocab|..] == labelText;
  }

  /** The label of the id found for a short name is the path of its term. */
  lemma LabelOfIdFromShortName(variant: Variant, ctx: Context, shortName: string)
    requires Lookup(ctx.terms, shortName).Some?
    requires variant == PnP || Lookup(ctx.terms, shortName).value.Path() != ""
    ensures LabelFromId(variant, ctx, IdFromShortName(variant, ctx, shortName).value) ==
      Lookup(ctx.terms, shortName).value.Path()
  {
    LabelOfIdFromLabel(variant, ctx, Lookup(ctx.terms, shortName).value.Path());
  }

  /** The first key whose id, the vocabulary followed by its path, is `id`. */
  function KeyForId(vocab: string, terms: seq<(string, Term)>, id: string): (r: Option<string>)
    ensures r.None? <==> forall i :: 0 <= i < |terms| ==> vocab + terms[i].1.Path() != id
  {
    if |terms| == 0 then None
    else if vocab + terms[0].1.Path() == id then Some(terms[0].0)
    else
      var r := KeyForId(vocab, terms[1..], id);
      assert forall i :: 1 <= i < |terms| ==> terms[i] == terms[1..][i - 1];
      r
  }

  /** The key found is that of the first term whose id is `id`. */
  lemma {:induction false} KeyForIdFirst(vocab: string, terms: seq<(string, Term)>, id: string) returns (i: nat)
    requires KeyForId(vocab, terms, id).Some?
    ensures i < |terms| && terms[i].0 == KeyForId(vocab, terms, id).value && vocab + terms[i].1.Path() == id
    ensures forall j :: 0 <= j < i ==> vocab + terms[j].1.Path() != id
    decreases |terms|
  {
    if vocab + terms[0].1.Path() == id {
      i := 0;
    } else {
      var k := KeyForIdFirst(vocab, terms[1..], id);
      i := k + 1;
      assert terms[i] == terms[1..][k];
      forall j | 0 <= j < i ensures vocab + terms[j].1.Path() != id {
        if j > 0 {
          assert terms[j] == terms[1..][j - 1];
        }
      }
    }
  }

  /** `getPropertyNameFromId`: the short name whose id is `id`, or `id` itself when there is none. */
  function PropertyNameFromId(ctx: Context, id: string): string
  {
    match KeyForId(ctx.vocab, ctx.terms, id)
    case Some(key) => key
    case None => id
  }

  /** A short name of the context is the property name of its own id when no earlier term has that id. */
  lemma PropertyNameOfId(ctx: Context, i: int)
    requires 0 <= i < |ctx.terms|
    requires forall j :: 0 <= j < i ==> ctx.terms[j].1.Path() != ctx.terms[i].1.Path()
    ensures PropertyNameFromId(ctx, ctx.vocab + ctx.terms[i].1.Path()) == ctx.terms[i].0
  {
    var id := ctx.vocab + ctx.terms[i].1.Path();
    assert KeyForId(ctx.vocab, ctx.terms, id).Some?;
    var k := KeyForIdFirst(ctx.vocab, ctx.terms, id);
    assert ctx.terms[k].1.Path() == (ctx.vocab + ctx.terms[k].1.Path())[|ctx.vocab|..];
    assert ctx.terms[i].1.Path() == id[|ctx.vocab|..];
    assert !(k < i);
    assert !(i < k);
  }

  /** The first key whose term's path is `label`. */
  function KeyForLabel(terms: seq<(string, Term)>, labelText: string): (r: Option<string>)
    ensures r.None? <==> forall i :: 0 <= i < |terms| ==> terms[i].1.Path() != labelText
    ensures r.Some? ==> exists i :: 0 <= i < |terms| && terms[i].0 == r.value && terms[i].1.Path() == labelText
  {
    if |terms| == 0 then None
    else if terms[0].1.Path() == labelText then Some(terms[0].0)
    else
      var r := KeyForLabel(terms[1..], labelText);
      assert forall i :: 1 <= i < |terms| ==> terms[i] == terms[1..][i - 1];
      r
  }

  /**
   * `getShortNameFromLabel`: the key of the first term naming the label;
   * failing that, the label itself, except that the Digital Twin parser
   * answers null for a label holding a '/'.
   */
  function ShortNameFromLabel(variant: Variant, ctx: Context, labelText: string): (r: Option<string>)
    ensures variant == PnP ==> r.Some?
    ensures r.None? <==> variant == DigitalTwin && KeyForLabel(ctx.terms, labelText).None? && '/' in labelText
  {
    match KeyForLabel(ctx.terms, labelText)
    case Some(key) => Some(key)
    case None => if variant == DigitalTwin && '/' in labelText then None else Some(labelText)
  }

  /** `getShortNameFromId`: `id.split('/').pop()`, the text after the last '/'. */
  function ShortNameFromId(id: string): string
  {
    var parts := Split(id, '/');
    parts[|parts| - 1]
  }

  /** The short name of an id is the end of the id after its last '/', or the whole id when it has none. */
  lemma {:induction false} ShortNameFromIdSpec(id: string)
    ensures NoSlash(ShortNameFromId(id))
    ensures EndsWith(id, ShortNameFromId(id))
    ensures |ShortNameFromId(id)| < |id| ==> id[|id| - |ShortNameFromId(id)| - 1] == '/'
    ensures NoSlash(id) ==> ShortNameFromId(id) == id
    decreases |id|
  {
    var i := IndexOf(id, '/');
    if i >= 0 {
      ShortNameFromIdSpec(id[i + 1..]);
      ShortNameStep(id, i);
    } else {
      ShortNameWhole(id);
    }
  }

  /** Text without a '/'. */
  predicate NoSlash(s: string)
  {
    forall j :: 0 <= j < |s| ==> s[j] != '/'
  }

  /** `r` is the short name of `id` as `ShortNameFromIdSpec` describes it. */
  predicate ShortNameShape(id: string, r: string)
  {
    NoSlash(r) && EndsWith(id, r) && (|r| < |id| ==> id[|id| - |r| - 1] == '/') && (NoSlash(id) ==> r == id)
  }

  /** An id with a '/' has the short name of the text after its first '/'. */
  lemma ShortNameStep(id: string, i: int)
    requires i == IndexOf(id, '/') && i >= 0
    requires ShortNameShape(id[i + 1..], ShortNameFromId(id[i + 1..]))
    ensures ShortNameShape(id, ShortNameFromId(id))
  {
    var r := ShortNameFromId(id[i + 1..]);
    ShortNameDrop(id, i);
    SuffixThroughRest(id, i, r);
    assert id[i] == '/';
  }

  /** Dropping the text up to the first '/' keeps the short name. */
  lemma ShortNameDrop(id: string, i: int)
    requires i == IndexOf(id, '/') && i >= 0
    ensures ShortNameFromId(id) == ShortNameFromId(id[i + 1..])
  {
    SplitAt(id, '/', i);
    LastOfCons(id[..i], Split(id[i + 1..], '/'));
  }

  lemma ShortNameWhole(id: string)
    requires NoSlash(id)
    ensures ShortNameShape(id, ShortNameFromId(id))
  {
    assert ShortNameFromId(id) == id;
    assert id[|id| - |id|..] == id;
  }

  /** Putting a part in front leaves the last part as it is. */
  lemma LastOfCons(x: string, p: seq<string>)
    requires |p| >= 1
    ensures ([x] + p)[|[x] + p| - 1] == p[|p| - 1]
  {
  }

  /** An ending of the text after a '/' at `i` is an ending of the whole text, preceded by a '/' there too. */
  lemma SuffixThroughRest(id: string, i: nat, r: string)
    requires i < |id| && id[i] == '/'
    requires EndsWith(id[i + 1..], r)
    requires |r| < |id[i + 1..]| ==> id[i + 1..][|id[i + 1..]| - |r| - 1] == '/'
    ensures EndsWith(id, r)
    ensures |r| < |id| ==> id[|id| - |r| - 1] == '/'
  {
    var rest := id[i + 1..];
    var d := |id| - |r|;
    forall k | 0 <= k < |r| ensures id[d + k] == r[k] {
      assert r[k] == rest[|rest| - |r|..][k];
    }
    assert id[d..] == r;
    if |r| < |rest| {
      assert id[d - 1] == rest[|rest| - |r| - 1];
    }
  }

  // ----- fixed tables -------------------------------------------------------

  /** The types `getRequiredPropertiesFromType` knows; any other type requires nothing. */
  const KnownTypes: seq<string> := [
    "Interface", "Telemetry", "Property", "Command", "Array", "Enum", "EnumValue", "Map", "MapKey",
    "MapValue", "Object", "SchemaField", "Boolean", "Bytes", "Date", "DateTime", "Duration", "Float",
    "Integer", "Long", "String", "Time", "CapabilityModel"]

  /** `getRequiredPropertiesFromType` of the Digital Twin parser: a fixed table. */
  function RequiredPropertiesFromType(type_: string): (r: seq<string>)
  {
    match type_
    case "Interface" => ["@id", "@type", "@context"]
    case "Telemetry" => ["@type", "name", "schema"]
    case "Property" => ["@type", "name", "schema"]
    case "Command" => ["@type", "name"]
    case "Array" => ["@type", "elementSchema"]
    case "Enum" => ["@type", "enumValues"]
    case "EnumValue" => ["name"]
    case "Map" => ["@type", "mapKey", "mapValue"]
    case "MapKey" => ["name", "schema"]
    case "MapValue" => ["name", "schema"]
    case "Object" => ["@type", "fields"]
    case "SchemaField" => ["name", "schema"]
    case "Boolean" => ["@type"]
    case "Bytes" => ["@type"]
    case "Date" => ["@type"]
    case "DateTime" => ["@type"]
    case "Duration" => ["@type"]
    case "Float" => ["@type"]
    case "Integer" => ["@type"]
    case "Long" => ["@type"]
    case "String" => ["@type"]
    case "Time" => ["@type"]
    case "CapabilityModel" => ["@id", "@type", "@context", "implements"]
    case _ => []
  }

  /** The table answers for exactly the known types; any other type requires nothing. */
  lemma RequiredPropertiesKnown(type_: string)
    ensures RequiredPropertiesFromType(type_) != [] <==> type_ in KnownTypes
  {
  }

  /** No type requires the same property twice. */
  lemma RequiredPropertiesDistinct(type_: string)
    ensures var r := RequiredPropertiesFromType(type_);
      forall i, j :: 0 <= i < j < |r| ==> r[i] != r[j]
  {
  }

  /**
   * Every known type requires `@type` but the four whose objects are named
   * parts of another: an enum value, a map key or value, a schema field.
   */
  lemma RequiredTypeProperty(type_: string)
    ensures RequiredPropertiesFromType(type_) != [] && "@type" !in RequiredPropertiesFromType(type_) <==>
      type_ == "EnumValue" || type_ == "MapKey" || type_ == "MapValue" || type_ == "SchemaField"
  {
  }

  /** The capability model requires what an interface requires, and `implements`. */
  lemma CapabilityModelRequirements()
    ensures RequiredPropertiesFromType("CapabilityModel") == RequiredPropertiesFromType("Interface") + ["implements"]
  {
  }

  /** `isArrayFromShortName`: the properties whose value is an array; the Digital Twin list adds `implements`. */
  function IsArrayFromShortName(variant: Variant, shortName: string): (r: bool)
  {
    var names := ["contents", "schemas", "fields", "enumValues"];
    if variant == DigitalTwin then shortName in names + ["implements"] else shortName in names
  }

  /** The PnP array properties are the Digital Twin ones but `implements`. */
  lemma ArrayPropertiesAgree(shortName: string)
    ensures IsArrayFromShortName(PnP, shortName) <==>
      IsArrayFromShortName(DigitalTwin, shortName) && shortName != "implements"
    ensures IsArrayFromShortName(DigitalTwin, shortName) <==>
      shortName in {"contents", "schemas", "fields", "enumValues", "implements"}
  {
  }

  /** The value type an XML schema datatype stands for, if it is one of the six primitive ones. */
  function XmlValueType(value: string): (r: Option<string>)
  {
    match value
    case "XMLSchema#boolean" => Some("boolean")
    case "XMLSchema#int" => Some("int")
    case "XMLSchema#long" => Some("long")
    case "XMLSchema#float" => Some("float")
    case "XMLSchema#double" => Some("double")
    case "XMLSchema#string" => Some("string")
    case _ => None
  }

  /** The six primitive value type names. */
  predicate IsValueTypeName(t: string)
  {
    t in ["boolean", "int", "long", "float", "double", "string"]
  }

  /** The mapping of `getValueTypesFromId`: each primitive datatype by its name, in order, the rest dropped. */
  function ValueTypesOf(values: seq<string>): (r: seq<string>)
    ensures |r| <= |values|
    ensures forall t :: t in r ==> IsValueTypeName(t)
  {
    if |values| == 0 then []
    else
      var front := ValueTypesOf(values[..|values| - 1]);
      match XmlValueType(values[|values| - 1])
      case Some(t) => front + [t]
      case None => front
  }

  /** A value type name appears exactly when a datatype standing for it does. */
  lemma {:induction false} ValueTypesOfMembers(values: seq<string>, t: string)
    ensures t in ValueTypesOf(values) <==> exists v :: v in values && XmlValueType(v) == Some(t)
    decreases |values|
  {
    if |values| > 0 {
      var front := values[..|values| - 1];
      ValueTypesOfMembers(front, t);
      assert values == front + [values[|values| - 1]];
      if exists v :: v in values && XmlValueType(v) == Some(t) {
        var v :| v in values && XmlValueType(v) == Some(t);
        if v != values[|values| - 1] {
          assert v in front;
        }
      }
    }
  }

  /**
   * `getValueTypeFromId` of the PnP parser, on the string values found:
   * empty unless there is exactly one value, with `long` read as `int` and
   * `double` as `float`.
   */
  function PnPValueType(values: seq<string>): (r: string)
  {
    if |values| != 1 then ""
    else
      match values[0]
      case "XMLSchema#boolean" => "boolean"
      case "XMLSchema#int" => "int"
      case "XMLSchema#long" => "int"
      case "XMLSchema#float" => "float"
      case "XMLSchema#double" => "float"
      case "XMLSchema#string" => "string"
      case _ => ""
  }

  /** The PnP single value type is the Digital Twin mapping of a single value, widened. */
  lemma PnPValueTypeWidens(values: seq<string>)
    ensures PnPValueType(values) != "" ==> |values| == 1 && |ValueTypesOf(values)| == 1
    ensures |values| == 1 && |ValueTypesOf(values)| == 1 ==>
      PnPValueType(values) == match ValueTypesOf(values)[0]
        case "long" => "int"
        case "double" => "float"
        case t => t
    ensures PnPValueType(values) !in ["long", "double"]
  {
    if |values| == 1 {
      assert values[..0] == [];
    }
  }

  /** The patterns `getStringValuePattern` gives, treated as opaque predicates. */
  datatype StringPattern = NamePattern | ImplementsPattern

  /** `getStringValuePattern`: `name` and `implements` carry a pattern, nothing else does. */
  function StringValuePattern(key: string): (r: Option<StringPattern>)
    ensures r.Some? <==> key in ["name", "implements"]
  {
    match key
    case "name" => Some(NamePattern)
    case "implements" => Some(ImplementsPattern)
    case _ => None
  }

  // ----- edge scans ---------------------------------------------------------

  /**
   * The scans recurse along edges and terminate only on a hierarchy without
   * cycles; a rank that falls along every step they take says so. The
   * property scan climbs to superclasses.
   */
  predicate SuperclassRanked(edges: seq<GraphEdge>, rank: string -> nat)
  {
    forall e <- edges :: e.relation == SubClassLabel ==> rank(e.target.id) < rank(e.source.id)
  }

  /** The type scan follows ranges forwards and descends to subclasses. */
  predicate TypeRanked(edges: seq<GraphEdge>, rank: string -> nat)
  {
    forall e <- edges ::
      (e.relation == RangeLabel ==> rank(e.target.id) < rank(e.source.id)) &&
      (e.relation == SubClassLabel ==> rank(e.source.id) < rank(e.target.id))
  }

  /** The string-value scan also descends from a class to its instances. */
  predicate ValueRanked(edges: seq<GraphEdge>, rank: string -> nat)
  {
    TypeRanked(edges, rank) && forall e <- edges :: e.relation == TypeLabel ==> rank(e.source.id) < rank(e.target.id)
  }

  /** What the first `n` edges add to the properties of `id`: its own, then those of its superclasses. */
  function PropertiesGathered(ctx: Context, edges: seq<GraphEdge>, rank: string -> nat, id: string, n: nat): seq<string>
    requires n <= |edges| && SuperclassRanked(edges, rank)
    decreases rank(id), n
  {
    if n == 0 then []
    else
      assert edges[n - 1] in edges;
      PropertiesGathered(ctx, edges, rank, id, n - 1) + PropertiesAdded(ctx, edges, rank, id, edges[n - 1])
  }

  /** What one edge adds to the properties of `id`. */
  function PropertiesAdded(ctx: Context, edges: seq<GraphEdge>, rank: string -> nat, id: string, e: GraphEdge): seq<string>
    requires e in edges && SuperclassRanked(edges, rank)
    decreases rank(id), 0
  {
    if e.target.id == id && e.relation == DomainLabel then [PropertyNameFromId(ctx, e.source.id)]
    else if e.source.id == id && e.relation == SubClassLabel then PropertiesFromId(ctx, edges, rank, e.target.id)
    else []
  }

  /** `getPropertiesFromId`: the properties of a class and of its superclasses, sorted and once each. */
  function PropertiesFromId(ctx: Context, edges: seq<GraphEdge>, rank: string -> nat, id: string): seq<string>
    requires SuperclassRanked(edges, rank)
    decreases rank(id), |edges| + 1
  {
    SortUnique(PropertiesGathered(ctx, edges, rank, id, |edges|))
  }

  /** An edge that gives `id` the property `p`: a domain edge naming it, or a superclass that has it. */
  predicate GivesProperty(ctx: Context, edges: seq<GraphEdge>, rank: string -> nat, id: string, e: GraphEdge, p: string)
    requires e in edges && SuperclassRanked(edges, rank)
  {
    (e.target.id == id && e.relation == DomainLabel && PropertyNameFromId(ctx, e.source.id) == p) ||
    (e.source.id == id && e.relation == SubClassLabel && p in PropertiesFromId(ctx, edges, rank, e.target.id))
  }

  lemma PropertiesAddedMembers(ctx: Context, edges: seq<GraphEdge>, rank: string -> nat, id: string, e: GraphEdge, p: string)
    requires e in edges && SuperclassRanked(edges, rank)
    ensures p in PropertiesAdded(ctx, edges, rank, id, e) <==> GivesProperty(ctx, edges, rank, id, e, p)
  {
    assert DomainLabel != SubClassLabel by {
      assert DomainLabel[|DomainLabel| - 1] != SubClassLabel[|SubClassLabel| - 1];
    }
  }

  /** The names gathered for `id` as a function of the number of edges scanned. */
  ghost function PropertiesSoFar(ctx: Context, edges: seq<GraphEdge>, rank: string -> nat, id: string): nat -> seq<string>
    requires SuperclassRanked(edges, rank)
  {
    (n: nat) => if n <= |edges| then PropertiesGathered(ctx, edges, rank, id, n) else []
  }

  /** The names each edge adds for `id`, by the edge's index. */
  ghost function PropertiesByEdge(ctx: Context, edges: seq<GraphEdge>, rank: string -> nat, id: string): nat -> seq<string>
    requires SuperclassRanked(edges, rank)
  {
    (k: nat) => if k < |edges| then (assert edges[k] in edges; PropertiesAdded(ctx, edges, rank, id, edges[k])) else []
  }

  /** The scan appends what each edge adds, in edge order. */
  lemma PropertiesAccumulate(ctx: Context, edges: seq<GraphEdge>, rank: string -> nat, id: string)
    requires SuperclassRanked(edges, rank)
    ensures Accumulates(PropertiesSoFar(ctx, edges, rank, id), PropertiesByEdge(ctx, edges, rank, id), |edges|)
  {
    forall i | 0 <= i < |edges|
      ensures PropertiesSoFar(ctx, edges, rank, id)(i + 1) ==
        PropertiesSoFar(ctx, edges, rank, id)(i) + PropertiesByEdge(ctx, edges, rank, id)(i)
    {
      assert edges[i] in edges;
    }
  }

  lemma PropertiesGatheredMembers(ctx: Context, edges: seq<GraphEdge>, rank: string -> nat, id: string, p: string)
    requires SuperclassRanked(edges, rank)
    ensures p in PropertiesGathered(ctx, edges, rank, id, |edges|) <==>
      exists k :: 0 <= k < |edges| && GivesProperty(ctx, edges, rank, id, edges[k], p)
  {
    var g := PropertiesSoFar(ctx, edges, rank, id);
    var a := PropertiesByEdge(ctx, edges, rank, id);
    PropertiesAccumulate(ctx, edges, rank, id);
    if p in PropertiesGathered(ctx, edges, rank, id, |edges|) {
      var k := AccumulatedSource(g, a, |edges|, p);
      assert edges[k] in edges;
      PropertiesAddedMembers(ctx, edges, rank, id, edges[k], p);
    }
    if exists k :: 0 <= k < |edges| && GivesProperty(ctx, edges, rank, id, edges[k], p) {
      var k :| 0 <= k < |edges| && GivesProperty(ctx, edges, rank, id, edges[k], p);
      assert edges[k] in edges;
      PropertiesAddedMembers(ctx, edges, rank, id, edges[k], p);
      AccumulatedHas(g, a, |edges|, k, p);
    }
  }

  /**
   * The properties of a class are sorted, free of duplicates, and exactly
   * the names its domain edges give it together with every property of
   * each of its superclasses.
   */
  lemma PropertiesFromIdSpec(ctx: Context, edges: seq<GraphEdge>, rank: string -> nat, id: string, p: string)
    requires SuperclassRanked(edges, rank)
    ensures StrictlySorted(PropertiesFromId(ctx, edges, rank, id))
    ensures p in PropertiesFromId(ctx, edges, rank, id) <==>
      exists k :: 0 <= k < |edges| && GivesProperty(ctx, edges, rank, id, edges[k], p)
  {
    SortUniqueSpec(PropertiesGathered(ctx, edges, rank, id, |edges|));
    PropertiesGatheredMembers(ctx, edges, rank, id, p);
  }

  /** A class has every property of each of its superclasses. */
  lemma InheritsProperties(ctx: Context, edges: seq<GraphEdge>, rank: string -> nat, k: int, p: string)
    requires SuperclassRanked(edges, rank) && 0 <= k < |edges| && edges[k].relation == SubClassLabel
    requires p in PropertiesFromId(ctx, edges, rank, edges[k].target.id)
    ensures p in PropertiesFromId(ctx, edges, rank, edges[k].source.id)
  {
    assert edges[k] in edges;
    assert GivesProperty(ctx, edges, rank, edges[k].source.id, edges[k], p);
    PropertiesFromIdSpec(ctx, edges, rank, edges[k].source.id, p);
  }

  /** What the first `n` edges add to the types of `id`: those of its ranges and of its subclasses. */
  function TypesGathered(variant: Variant, ctx: Context, edges: seq<GraphEdge>, rank: string -> nat, id: string, n: nat): seq<string>
    requires n <= |edges| && TypeRanked(edges, rank)
    decreases rank(id), n
  {
    if n == 0 then []
    else
      assert edges[n - 1] in edges;
      TypesGathered(variant, ctx, edges, rank, id, n - 1) + TypesAdded(variant, ctx, edges, rank, id, edges[n - 1])
  }

  /** What one edge adds to the types of `id`. */
  function TypesAdded(variant: Variant, ctx: Context, edges: seq<GraphEdge>, rank: string -> nat, id: string, e: GraphEdge): seq<string>
    requires e in edges && TypeRanked(edges, rank)
    decreases rank(id), 0
  {
    (if e.source.id == id && e.relation == RangeLabel then TypesFromId(variant, ctx, edges, rank, e.target.id) else []) +
    (if e.target.id == id && e.relation == SubClassLabel then TypesFromId(variant, ctx, edges, rank, e.source.id) else [])
  }

  /**
   * The type of an id that no edge gives a type: the short name of its
   * label; the Digital Twin parser leaves it out when there is none or it is
   * empty.
   */
  function TypeFallback(variant: Variant, ctx: Context, id: string): (r: seq<string>)
    ensures |r| <= 1
    ensures variant == PnP ==> |r| == 1
  {
    var shortName := ShortNameFromLabel(variant, ctx, LabelFromId(variant, ctx, id));
    if variant == DigitalTwin then
      if shortName.Some? && shortName.value != "" then [shortName.value] else []
    else [shortName.value]
  }

  /** `getTypesFromId`: the types reached through ranges and subclasses, or the fallback; sorted and once each. */
  function TypesFromId(variant: Variant, ctx: Context, edges: seq<GraphEdge>, rank: string -> nat, id: string): seq<string>
    requires TypeRanked(edges, rank)
    decreases rank(id), |edges| + 1
  {
    var gathered := TypesGathered(variant, ctx, edges, rank, id, |edges|);
    SortUnique(if gathered == [] then TypeFallback(variant, ctx, id) else gathered)
  }

  /** An edge that gives `id` the type `t`: a range of it, or a subclass of it, that has the type. */
  predicate GivesType(variant: Variant, ctx: Context, edges: seq<GraphEdge>, rank: string -> nat, id: string, e: GraphEdge, t: string)
    requires e in edges && TypeRanked(edges, rank)
  {
    (e.source.id == id && e.relation == RangeLabel && t in TypesFromId(variant, ctx, edges, rank, e.target.id)) ||
    (e.target.id == id && e.relation == SubClassLabel && t in TypesFromId(variant, ctx, edges, rank, e.source.id))
  }

  lemma TypesAddedMembers(variant: Variant, ctx: Context, edges: seq<GraphEdge>, rank: string -> nat, id: string, e: GraphEdge, t: string)
    requires e in edges && TypeRanked(edges, rank)
    ensures t in TypesAdded(variant, ctx, edges, rank, id, e) <==> GivesType(variant, ctx, edges, rank, id, e, t)
  {
    var a := if e.source.id == id && e.relation == RangeLabel then TypesFromId(variant, ctx, edges, rank, e.target.id) else [];
    var b := if e.target.id == id && e.relation == SubClassLabel then TypesFromId(variant, ctx, edges, rank, e.source.id) else [];
    assert TypesAdded(variant, ctx, edges, rank, id, e) == a + b;
    assert t in a + b <==> t in a || t in b;
  }

  /** The types gathered from `id` as a function of the number of edges scanned. */
  ghost function TypesSoFar(variant: Variant, ctx: Context, edges: seq<GraphEdge>, rank: string -> nat, id: string): nat -> seq<string>
    requires TypeRanked(edges, rank)
  {
    (n: nat) => if n <= |edges| then TypesGathered(variant, ctx, edges, rank, id, n) else []
  }

  /** The types each edge adds for `id`, by the edge's index. */
  ghost function TypesByEdge(variant: Variant, ctx: Context, edges: seq<GraphEdge>, rank: string -> nat, id: string): nat -> seq<string>
    requires TypeRanked(edges, rank)
  {
    (k: nat) => if k < |edges| then (assert edges[k] in edges; TypesAdded(variant, ctx, edges, rank, id, edges[k])) else []
  }

  /** The scan appends what each edge adds, in edge order. */
  lemma TypesAccumulate(variant: Variant, ctx: Context, edges: seq<GraphEdge>, rank: string -> nat, id: string)
    requires TypeRanked(edges, rank)
    ensures Accumulates(TypesSoFar(variant, ctx, edges, rank, id), TypesByEdge(variant, ctx, edges, rank, id), |edges|)
  {
    forall i | 0 <= i < |edges|
      ensures TypesSoFar(variant, ctx, edges, rank, id)(i + 1) ==
        TypesSoFar(variant, ctx, edges, rank, id)(i) + TypesByEdge(variant, ctx, edges, rank, id)(i)
    {
      assert edges[i] in edges;
    }
  }

  /** A type gathered from the edges comes from one of them. */
  lemma TypesGatheredSource(variant: Variant, ctx: Context, edges: seq<GraphEdge>, rank: string -> nat, id: string, t: string)
    returns (k: nat)
    requires TypeRanked(edges, rank)
    requires t in TypesGathered(variant, ctx, edges, rank, id, |edges|)
    ensures k < |edges| && GivesType(variant, ctx, edges, rank, id, edges[k], t)
  {
    TypesAccumulate(variant, ctx, edges, rank, id);
    k := AccumulatedSource(TypesSoFar(variant, ctx, edges, rank, id), TypesByEdge(variant, ctx, edges, rank, id), |edges|, t);
    assert edges[k] in edges;
    TypesAddedMembers(variant, ctx, edges, rank, id, edges[k], t);
  }

  /** A type one of the edges gives is gathered. */
  lemma TypesGatheredHas(variant: Variant, ctx: Context, edges: seq<GraphEdge>, rank: string -> nat, id: string, k: nat, t: string)
    requires k < |edges| && TypeRanked(edges, rank)
    requires GivesType(variant, ctx, edges, rank, id, edges[k], t)
    ensures t in TypesGathered(variant, ctx, edges, rank, id, |edges|)
  {
    assert edges[k] in edges;
    TypesAddedMembers(variant, ctx, edges, rank, id, edges[k], t);
    TypesAccumulate(variant, ctx, edges, rank, id);
    AccumulatedHas(TypesSoFar(variant, ctx, edges, rank, id), TypesByEdge(variant, ctx, edges, rank, id), |edges|, k, t);
  }

  /**
   * The types of an id are sorted and free of duplicates; when some edge
   * gives it a type they are exactly the types the edges give, and when no
   * edge does they are the fallback.
   */
  lemma TypesFromIdSpec(variant: Variant, ctx: Context, edges: seq<GraphEdge>, rank: string -> nat, id: string, t: string)
    requires TypeRanked(edges, rank)
    ensures StrictlySorted(TypesFromId(variant, ctx, edges, rank, id))
    ensures (exists k, u :: 0 <= k < |edges| && GivesType(variant, ctx, edges, rank, id, edges[k], u)) ==>
      (t in TypesFromId(variant, ctx, edges, rank, id) <==>
       exists k :: 0 <= k < |edges| && GivesType(variant, ctx, edges, rank, id, edges[k], t))
    ensures (forall k, u :: 0 <= k < |edges| ==> !GivesType(variant, ctx, edges, rank, id, edges[k], u)) ==>
      TypesFromId(variant, ctx, edges, rank, id) == TypeFallback(variant, ctx, id)
  {
    var gathered := TypesGathered(variant, ctx, edges, rank, id, |edges|);
    var r := TypesFromId(variant, ctx, edges, rank, id);
    SortUniqueSpec(if gathered == [] then TypeFallback(variant, ctx, id) else gathered);
    if exists k, u :: 0 <= k < |edges| && GivesType(variant, ctx, edges, rank, id, edges[k], u) {
      var k, u :| 0 <= k < |edges| && GivesType(variant, ctx, edges, rank, id, edges[k], u);
      TypesGatheredHas(variant, ctx, edges, rank, id, k, u);
      assert gathered != [];
      if t in r {
        var j := TypesGatheredSource(variant, ctx, edges, rank, id, t);
      }
      if exists j :: 0 <= j < |edges| && GivesType(variant, ctx, edges, rank, id, edges[j], t) {
        var j :| 0 <= j < |edges| && GivesType(variant, ctx, edges, rank, id, edges[j], t);
        TypesGatheredHas(variant, ctx, edges, rank, id, j, t);
      }
    } else if gathered != [] {
      var j := TypesGatheredSource(variant, ctx, edges, rank, id, gathered[0]);
    } else {
      var f := TypeFallback(variant, ctx, id);
      assert f == [] || f == [f[0]];
      assert SortUnique(f) == f;
    }
  }

  /** What the first `n` edges add to the string values of `id`: those of its ranges, subclasses and instances. */
  function ValuesGathered(edges: seq<GraphEdge>, rank: string -> nat, id: string, n: nat): seq<string>
    requires n <= |edges| && ValueRanked(edges, rank)
    decreases rank(id), n
  {
    if n == 0 then []
    else
      assert edges[n - 1] in edges;
      ValuesGathered(edges, rank, id, n - 1) + ValuesAdded(edges, rank, id, edges[n - 1])
  }

  /** What one edge adds to the string values of `id`. */
  function ValuesAdded(edges: seq<GraphEdge>, rank: string -> nat, id: string, e: GraphEdge): seq<string>
    requires e in edges && ValueRanked(edges, rank)
    decreases rank(id), 0
  {
    (if e.source.id == id && e.relation == RangeLabel then StringValuesFromId(edges, rank, e.target.id) else []) +
    (if e.target.id == id && e.relation == SubClassLabel then StringValuesFromId(edges, rank, e.source.id) else []) +
    (if e.target.id == id && e.relation == TypeLabel then StringValuesFromId(edges, rank, e.source.id) else [])
  }

  /** Some domain edge gives `id` a property: it is a class of objects. */
  predicate HasDomainEdge(edges: seq<GraphEdge>, id: string)
  {
    exists e <- edges :: e.target.id == id && e.relation == DomainLabel
  }

  /** Some domain edge among the first `n` gives `id` a property. */
  predicate DomainEdgeBefore(edges: seq<GraphEdge>, id: string, n: nat)
    requires n <= |edges|
  {
    n > 0 && (DomainEdgeBefore(edges, id, n - 1) || (edges[n - 1].target.id == id && edges[n - 1].relation == DomainLabel))
  }

  lemma {:induction false} DomainEdgeBeforeSpec(edges: seq<GraphEdge>, id: string, n: nat)
    requires n <= |edges|
    ensures DomainEdgeBefore(edges, id, n) <==> exists j :: 0 <= j < n && edges[j].target.id == id && edges[j].relation == DomainLabel
  {
    if n > 0 {
      DomainEdgeBeforeSpec(edges, id, n - 1);
    }
  }

  lemma DomainEdgeBeforeAll(edges: seq<GraphEdge>, id: string)
    ensures DomainEdgeBefore(edges, id, |edges|) == HasDomainEdge(edges, id)
  {
    DomainEdgeBeforeSpec(edges, id, |edges|);
    if HasDomainEdge(edges, id) {
      var e :| e in edges && e.target.id == id && e.relation == DomainLabel;
      var j :| 0 <= j < |edges| && edges[j] == e;
    }
  }

  /**
   * `getStringValuesFromId`: the values gathered along ranges, subclasses
   * and instances; with none, nothing for a class of objects, else the id's
   * short name when it is not empty.
   */
  function StringValuesFromId(edges: seq<GraphEdge>, rank: string -> nat, id: string): seq<string>
    requires ValueRanked(edges, rank)
    decreases rank(id), |edges| + 1
  {
    var values := ValuesGathered(edges, rank, id, |edges|);
    if values != [] then values
    else if HasDomainEdge(edges, id) then []
    else
      var shortName := ShortNameFromId(id);
      if shortName != "" then [shortName] else []
  }

  lemma {:induction false} ValuesGatheredNoSlash(edges: seq<GraphEdge>, rank: string -> nat, id: string, n: nat)
    requires n <= |edges| && ValueRanked(edges, rank)
    ensures forall v <- ValuesGathered(edges, rank, id, n) :: '/' !in v
    decreases rank(id), n
  {
    if n > 0 {
      ValuesGatheredNoSlash(edges, rank, id, n - 1);
      var e := edges[n - 1];
      assert e in edges;
      if e.source.id == id && e.relation == RangeLabel {
        StringValuesNoSlash(edges, rank, e.target.id);
      }
      if e.target.id == id && (e.relation == SubClassLabel || e.relation == TypeLabel) {
        StringValuesNoSlash(edges, rank, e.source.id);
      }
    }
  }

  /**
   * Every string value is the short name of some id: it holds no '/', and
   * it is not empty.
   */
  lemma {:induction false} StringValuesNoSlash(edges: seq<GraphEdge>, rank: string -> nat, id: string)
    requires ValueRanked(edges, rank)
    ensures forall v <- StringValuesFromId(edges, rank, id) :: '/' !in v
    decreases rank(id), |edges| + 1
  {
    ValuesGatheredNoSlash(edges, rank, id, |edges|);
    ShortNameFromIdSpec(id);
  }

  /** `getValueTypesFromId` of the Digital Twin parser: nothing for the empty id, else the primitive types of its values. */
  function ValueTypesFromId(edges: seq<GraphEdge>, rank: string -> nat, id: string): seq<string>
    requires ValueRanked(edges, rank)
  {
    if id == "" then [] else ValueTypesOf(StringValuesFromId(edges, rank, id))
  }

  /** `getValueTypeFromId` of the PnP parser: empty for the empty id, else the single value type. */
  function ValueTypeFromId(edges: seq<GraphEdge>, rank: string -> nat, id: string): string
    requires ValueRanked(edges, rank)
  {
    if id == "" then "" else PnPValueType(StringValuesFromId(edges, rank, id))
  }

  /**
   * The string values of the id a short name resolves to, none when it
   * resolves to nothing; the Digital Twin parser gives `implements` none.
   */
  function StringValuesFromShortName(variant: Variant, ctx: Context, edges: seq<GraphEdge>, rank: string -> nat, shortName: string): seq<string>
    requires ValueRanked(edges, rank)
  {
    if variant == DigitalTwin && shortName == "implements" then []
    else
      var id := IdFromShortName(variant, ctx, shortName);
      if id.None? || id.value == "" then [] else StringValuesFromId(edges, rank, id.value)
  }

  /**
   * An entry of `getTypedPropertiesFromId`: a property's short name, whether
   * the class requires it (the PnP parser reports no such flag) and its value
   * type, "array" for the array properties.
   */
  datatype TypedProperty = TypedProperty(labelText: string, required: Option<bool>, valueType: string)

  /** The properties a class requires: those of its short name as a type, none when that is empty. */
  function RequiredOfId(id: string): seq<string>
  {
    var type_ := ShortNameFromId(id);
    if type_ != "" then RequiredPropertiesFromType(type_) else []
  }

  /**
   * The entry for one property key. The Digital Twin parser skips a key with
   * no id and takes the first of its value types; the PnP parser keeps every
   * key and takes its single value type.
   */
  function TypedPropertyOf(variant: Variant, ctx: Context, edges: seq<GraphEdge>, rank: string -> nat, required: seq<string>, key: string): Option<TypedProperty>
    requires ValueRanked(edges, rank)
  {
    var id := IdFromShortName(variant, ctx, key);
    if variant == DigitalTwin then
      if id.None? || id.value == "" then None
      else
        var valueTypes := ValueTypesFromId(edges, rank, id.value);
        Some(TypedProperty(key, Some(key in required),
          if IsArrayFromShortName(variant, key) then "array" else if valueTypes != [] then valueTypes[0] else ""))
    else
      Some(TypedProperty(key, None,
        if IsArrayFromShortName(variant, key) then "array" else ValueTypeFromId(edges, rank, id.value)))
  }

  /** The entries for a list of keys, in order. */
  function TypedPropertiesOf(variant: Variant, ctx: Context, edges: seq<GraphEdge>, rank: string -> nat, required: seq<string>, keys: seq<string>): seq<TypedProperty>
    requires ValueRanked(edges, rank)
  {
    if keys == [] then []
    else
      var front := TypedPropertiesOf(variant, ctx, edges, rank, required, keys[..|keys| - 1]);
      match TypedPropertyOf(variant, ctx, edges, rank, required, keys[|keys| - 1])
      case Some(item) => front + [item]
      case None => front
  }

  /** `getTypedPropertiesFromId`: the entries for the properties of a class. */
  function TypedPropertiesFromId(variant: Variant, ctx: Context, edges: seq<GraphEdge>, superRank: string -> nat, valueRank: string -> nat, id: string): seq<TypedProperty>
    requires SuperclassRanked(edges, superRank) && ValueRanked(edges, valueRank)
  {
    TypedPropertiesOf(variant, ctx, edges, valueRank, RequiredOfId(id), PropertiesFromId(ctx, edges, superRank, id))
  }

  /** A key the Digital Twin parser can resolve to a non-empty id; the PnP parser resolves every key. */
  predicate Resolves(variant: Variant, ctx: Context, key: string)
  {
    var id := IdFromShortName(variant, ctx, key);
    variant == PnP || (id.Some? && id.value != "")
  }

  /** The property names of a list of entries. */
  function Labels(items: seq<TypedProperty>): (r: seq<string>)
    ensures |r| == |items| && forall i :: 0 <= i < |r| ==> r[i] == items[i].labelText
  {
    if items == [] then [] else Labels(items[..|items| - 1]) + [items[|items| - 1].labelText]
  }

  /**
   * The entry for a key exists exactly when the key resolves; it names the
   * key, is flagged required exactly when the Digital Twin class requires
   * it, and is typed "array" for an array property, else by a value type
   * name or not at all.
   */
  lemma TypedPropertyOfSpec(variant: Variant, ctx: Context, edges: seq<GraphEdge>, rank: string -> nat, required: seq<string>, key: string)
    requires ValueRanked(edges, rank)
    ensures var t := TypedPropertyOf(variant, ctx, edges, rank, required, key);
      (t.Some? <==> Resolves(variant, ctx, key)) &&
      (t.Some? ==> (t.value.labelText == key && (variant == DigitalTwin <==> t.value.required.Some?) &&
        (t.value.required == Some(true) <==> variant == DigitalTwin && key in required) &&
        (IsArrayFromShortName(variant, key) ==> t.value.valueType == "array") &&
        (!IsArrayFromShortName(variant, key) ==> t.value.valueType == "" || IsValueTypeName(t.value.valueType))))
  {
  }

  /** The last key adds its entry when it resolves, and nothing else. */
  lemma TypedPropertiesOfStep(variant: Variant, ctx: Context, edges: seq<GraphEdge>, rank: string -> nat, required: seq<string>, keys: seq<string>)
    requires ValueRanked(edges, rank) && keys != []
    ensures var r := TypedPropertiesOf(variant, ctx, edges, rank, required, keys);
      var f := TypedPropertiesOf(variant, ctx, edges, rank, required, keys[..|keys| - 1]);
      var last := keys[|keys| - 1];
      (Resolves(variant, ctx, last) ==> r == f + [TypedPropertyOf(variant, ctx, edges, rank, required, last).value] && Labels(r) == Labels(f) + [last]) &&
      (!Resolves(variant, ctx, last) ==> r == f)
  {
    var r := TypedPropertiesOf(variant, ctx, edges, rank, required, keys);
    var f := TypedPropertiesOf(variant, ctx, edges, rank, required, keys[..|keys| - 1]);
    TypedPropertyOfSpec(variant, ctx, edges, rank, required, keys[|keys| - 1]);
    if Resolves(variant, ctx, keys[|keys| - 1]) {
      assert Labels(r) == Labels(f) + [keys[|keys| - 1]];
    }
  }

  /** Each entry is the one its key gives, and the entries name exactly the keys that resolve, PnP keeping them all. */
  lemma {:induction false} TypedPropertiesOfEntries(variant: Variant, ctx: Context, edges: seq<GraphEdge>, rank: string -> nat, required: seq<string>, keys: seq<string>)
    requires ValueRanked(edges, rank)
    ensures var r := TypedPropertiesOf(variant, ctx, edges, rank, required, keys);
      (forall i :: 0 <= i < |r| ==> TypedPropertyOf(variant, ctx, edges, rank, required, r[i].labelText) == Some(r[i])) &&
      (forall k :: k in Labels(r) <==> k in keys && Resolves(variant, ctx, k)) &&
      (variant == PnP ==> Labels(r) == keys)
  {
    if keys != [] {
      var front := keys[..|keys| - 1];
      var last := keys[|keys| - 1];
      assert keys == front + [last];
      TypedPropertiesOfEntries(variant, ctx, edges, rank, required, front);
      TypedPropertyOfSpec(variant, ctx, edges, rank, required, last);
      TypedPropertiesOfStep(variant, ctx, edges, rank, required, keys);
    }
  }

  lemma SortedAppend(s: seq<string>, x: string)
    requires StrictlySorted(s) && forall y :: y in s ==> LexLess(y, x)
    ensures StrictlySorted(s + [x])
  {
    forall i, j | 0 <= i < j < |s| + 1
      ensures LexLess((s + [x])[i], (s + [x])[j])
    {
      if j == |s| {
        assert s[i] in s;
      }
    }
  }

  /** The entries keep the keys' order. */
  lemma {:induction false} TypedPropertiesOfSorted(variant: Variant, ctx: Context, edges: seq<GraphEdge>, rank: string -> nat, required: seq<string>, keys: seq<string>)
    requires ValueRanked(edges, rank) && StrictlySorted(keys)
    ensures StrictlySorted(Labels(TypedPropertiesOf(variant, ctx, edges, rank, required, keys)))
  {
    if keys != [] {
      var front := keys[..|keys| - 1];
      var last := keys[|keys| - 1];
      assert StrictlySorted(front);
      TypedPropertiesOfSorted(variant, ctx, edges, rank, required, front);
      TypedPropertiesOfEntries(variant, ctx, edges, rank, required, front);
      var f := TypedPropertiesOf(variant, ctx, edges, rank, required, front);
      if Resolves(variant, ctx, last) {
        forall x | x in Labels(f)
          ensures LexLess(x, last)
        {
          var j :| 0 <= j < |front| && front[j] == x;
          assert keys[j] == x;
        }
        SortedAppend(Labels(f), last);
      }
      TypedPropertiesOfStep(variant, ctx, edges, rank, required, keys);
    }
  }

  /**
   * The entries of a class name, sorted and once each, exactly those of its
   * properties, inherited ones included, that resolve.
   */
  lemma TypedPropertiesFromIdSpec(variant: Variant, ctx: Context, edges: seq<GraphEdge>, superRank: string -> nat, valueRank: string -> nat, id: string)
    requires SuperclassRanked(edges, superRank) && ValueRanked(edges, valueRank)
    ensures var r := TypedPropertiesFromId(variant, ctx, edges, superRank, valueRank, id);
      StrictlySorted(Labels(r)) &&
      forall k :: k in Labels(r) <==> k in PropertiesFromId(ctx, edges, superRank, id) && Resolves(variant, ctx, k)
  {
    var keys := PropertiesFromId(ctx, edges, superRank, id);
    PropertiesFromIdSpec(ctx, edges, superRank, id, "");
    TypedPropertiesOfEntries(variant, ctx, edges, valueRank, RequiredOfId(id), keys);
    TypedPropertiesOfSorted(variant, ctx, edges, valueRank, RequiredOfId(id), keys);
  }

  /**
   * The context `getTypedPropertiesFromType` reads a type in: the Digital
   * Twin parser switches to its interface context for `Interface` and to its
   * capability-model context for `CapabilityModel`; the PnP parser keeps the
   * one it has.
   */
  function TypeContext(variant: Variant, ctx: Context, interfaceCtx: Context, modelCtx: Context, type_: string): Context
  {
    if variant == DigitalTwin && type_ == "Interface" then interfaceCtx
    else if variant == DigitalTwin && type_ == "CapabilityModel" then modelCtx
    else ctx
  }

  /**
   * `getTypedPropertiesFromType`: the entries of the class a type names, read
   * in the context the type switches to; none when its id is empty.
   */
  function TypedPropertiesFromType(variant: Variant, ctx: Context, interfaceCtx: Context, modelCtx: Context,
                                   edges: seq<GraphEdge>, superRank: string -> nat, valueRank: string -> nat, type_: string): seq<TypedProperty>
    requires SuperclassRanked(edges, superRank) && ValueRanked(edges, valueRank)
  {
    var c := TypeContext(variant, ctx, interfaceCtx, modelCtx, type_);
    var id := IdFromType(c, type_);
    if id == "" then [] else TypedPropertiesFromId(variant, c, edges, superRank, valueRank, id)
  }

  /**
   * The Digital Twin parser answers `Interface` and `CapabilityModel` alike
   * whatever context the caller passes, and the PnP parser reads every type
   * in its own context.
   */
  lemma TypedPropertiesFromTypeContext(variant: Variant, ctx: Context, other: Context, interfaceCtx: Context, modelCtx: Context,
                                       edges: seq<GraphEdge>, superRank: string -> nat, valueRank: string -> nat, type_: string)
    requires SuperclassRanked(edges, superRank) && ValueRanked(edges, valueRank)
    ensures variant == DigitalTwin && type_ in ["Interface", "CapabilityModel"] ==>
      TypedPropertiesFromType(variant, ctx, interfaceCtx, modelCtx, edges, superRank, valueRank, type_) ==
      TypedPropertiesFromType(variant, other, interfaceCtx, modelCtx, edges, superRank, valueRank, type_)
    ensures variant == PnP ==>
      TypedPropertiesFromType(variant, ctx, interfaceCtx, modelCtx, edges, superRank, valueRank, type_) ==
      TypedPropertiesFromType(variant, ctx, ctx, ctx, edges, superRank, valueRank, type_)
  {
  }

  /** The index of the first comment edge of `id`, or -1. */
  function FirstComment(edges: seq<GraphEdge>, id: string, i: nat := 0): (r: int)
    requires i <= |edges|
    ensures r == -1 || i <= r < |edges|
    ensures r == -1 <==> forall j :: i <= j < |edges| ==> !(edges[j].source.id == id && edges[j].relation == CommentLabel)
    ensures r >= 0 ==> (edges[r].source.id == id && edges[r].relation == CommentLabel &&
      forall j :: i <= j < r ==> !(edges[j].source.id == id && edges[j].relation == CommentLabel))
    decreases |edges| - i
  {
    if i == |edges| then -1
    else if edges[i].source.id == id && edges[i].relation == CommentLabel then i
    else FirstComment(edges, id, i + 1)
  }

  /** `getCommentFromId`, without the cache: the value of the first comment edge, if there is one. */
  function CommentFromId(edges: seq<GraphEdge>, id: string): Option<string>
  {
    var k := FirstComment(edges, id);
    if k < 0 then None else edges[k].target.value
  }

  /** A comment as the cache keeps it: an absent one as the empty string. */
  function CommentText(edges: seq<GraphEdge>, id: string): string
  {
    match CommentFromId(edges, id)
    case Some(text) => text
    case None => ""
  }

  /** The key found for a label is that of the first term naming it. */
  lemma {:induction false} KeyForLabelFirst(terms: seq<(string, Term)>, labelText: string, i: nat)
    requires i < |terms| && terms[i].1.Path() == labelText
    requires forall j :: 0 <= j < i ==> terms[j].1.Path() != labelText
    ensures KeyForLabel(terms, labelText) == Some(terms[i].0)
    decreases i
  {
    if i > 0 {
      assert terms[1..][i - 1] == terms[i];
      assert forall j :: 0 <= j < i - 1 ==> terms[1..][j] == terms[j + 1];
      KeyForLabelFirst(terms[1..], labelText, i - 1);
    }
  }

  // ----- the parser and its caches -------------------------------------------

  /** Each cache holds, for every key it has, the answer the query would compute afresh. */
  ghost predicate PropertyNamesCached(ctx: Context, cache: map<string, string>)
  {
    forall id :: id in cache ==> cache[id] == PropertyNameFromId(ctx, id)
  }

  ghost predicate ShortNamesCached(variant: Variant, ctx: Context, cache: map<string, Option<string>>)
  {
    forall l :: l in cache ==> cache[l] == ShortNameFromLabel(variant, ctx, l)
  }

  ghost predicate CommentsCached(edges: seq<GraphEdge>, cache: map<string, string>)
  {
    forall id :: id in cache ==> cache[id] == CommentText(edges, id)
  }

  ghost predicate PropertiesCached(ctx: Context, edges: seq<GraphEdge>, rank: string -> nat, cache: map<string, seq<string>>)
    requires SuperclassRanked(edges, rank)
  {
    forall id :: id in cache ==> cache[id] == PropertiesFromId(ctx, edges, rank, id)
  }

  ghost predicate TypesCached(variant: Variant, ctx: Context, edges: seq<GraphEdge>, rank: string -> nat, cache: map<string, seq<string>>)
    requires TypeRanked(edges, rank)
  {
    forall id :: id in cache ==> cache[id] == TypesFromId(variant, ctx, edges, rank, id)
  }

  ghost predicate StringValuesCached(edges: seq<GraphEdge>, rank: string -> nat, cache: map<string, seq<string>>)
    requires ValueRanked(edges, rank)
  {
    forall id :: id in cache ==> cache[id] == StringValuesFromId(edges, rank, id)
  }

  ghost predicate TypedPropertiesCached(variant: Variant, ctx: Context, edges: seq<GraphEdge>, superRank: string -> nat, valueRank: string -> nat,
                                       cache: map<string, seq<TypedProperty>>)
    requires SuperclassRanked(edges, superRank) && ValueRanked(edges, valueRank)
  {
    forall id :: id in cache ==> cache[id] == TypedPropertiesFromId(variant, ctx, edges, superRank, valueRank, id)
  }

  ghost predicate ValueTypesCached(edges: seq<GraphEdge>, rank: string -> nat, cache: map<string, seq<string>>)
    requires ValueRanked(edges, rank)
  {
    forall id :: id in cache ==> cache[id] == ValueTypesFromId(edges, rank, id)
  }

  /**
   * `DigitalTwinMetaModelParser` and `PnPMetaModelParser` over one graph.
   * The Digital Twin parser holds the interface and capability-model
   * contexts and every query takes the context to read in; the PnP parser
   * has one context, which its queries are given. The Digital Twin parser
   * caches property names, short names, comments, properties, types, string
   * values and value types; the PnP parser only property names and types.
   * Every cache is keyed by id or label alone, whatever the context of the
   * call that filled it. `Valid` says each cache whose answer depends on no
   * context holds what the query computes afresh; `CachedFor(c)` says the
   * same of the others for context `c`.
   */
  class MetaModelParser {
    const variant: Variant
    const interfaceCtx: Context
    const modelCtx: Context
    const edges: seq<GraphEdge>
    ghost const superRank: string -> nat
    ghost const typeRank: string -> nat
    ghost const valueRank: string -> nat

    var propertyNameCache: map<string, string>
    var shortNameCache: map<string, Option<string>>
    var commentCache: map<string, string>
    var propertiesCache: map<string, seq<string>>
    var typesCache: map<string, seq<string>>
    var stringValuesCache: map<string, seq<string>>
    var valueTypesCache: map<string, seq<string>>
    var typedPropertiesCache: map<string, seq<TypedProperty>>

    ghost predicate Valid()
      reads this
    {
      SuperclassRanked(edges, superRank) && TypeRanked(edges, typeRank) && ValueRanked(edges, valueRank) &&
      CommentsCached(edges, commentCache) &&
      StringValuesCached(edges, valueRank, stringValuesCache) &&
      ValueTypesCached(edges, valueRank, valueTypesCache)
    }

    /** Every cached answer that depends on a context is the one context `c` gives. */
    ghost predicate CachedFor(c: Context)
      reads this
      requires Valid()
    {
      PropertyNamesCached(c, propertyNameCache) &&
      ShortNamesCached(variant, c, shortNameCache) &&
      PropertiesCached(c, edges, superRank, propertiesCache) &&
      TypesCached(variant, c, edges, typeRank, typesCache) &&
      TypedPropertiesCached(variant, c, edges, superRank, valueRank, typedPropertiesCache)
    }

    /** The caches whose answers depend on a context. */
    ghost function ContextCaches(): (map<string, string>, map<string, Option<string>>, map<string, seq<string>>, map<string, seq<string>>, map<string, seq<TypedProperty>>)
      reads this
    {
      (propertyNameCache, shortNameCache, propertiesCache, typesCache, typedPropertiesCache)
    }

    /** A parser with empty caches; the ranks witness that the scans terminate. */
    constructor(variant: Variant, interfaceCtx: Context, modelCtx: Context, edges: seq<GraphEdge>,
                ghost superRank: string -> nat, ghost typeRank: string -> nat, ghost valueRank: string -> nat)
      requires SuperclassRanked(edges, superRank) && TypeRanked(edges, typeRank) && ValueRanked(edges, valueRank)
      ensures Valid() && forall c :: CachedFor(c)
      ensures this.variant == variant && this.interfaceCtx == interfaceCtx && this.modelCtx == modelCtx && this.edges == edges
      ensures propertyNameCache == map[] && shortNameCache == map[] && commentCache == map[]
      ensures propertiesCache == map[] && typesCache == map[] && stringValuesCache == map[] && valueTypesCache == map[]
      ensures typedPropertiesCache == map[]
    {
      this.variant := variant;
      this.interfaceCtx := interfaceCtx;
      this.modelCtx := modelCtx;
      this.edges := edges;
      this.superRank := superRank;
      this.typeRank := typeRank;
      this.valueRank := valueRank;
      propertyNameCache := map[];
      shortNameCache := map[];
      commentCache := map[];
      propertiesCache := map[];
      typesCache := map[];
      stringValuesCache := map[];
      valueTypesCache := map[];
      typedPropertiesCache := map[];
    }

    /**
     * `getPropertyNameFromId`: answers a cached non-empty name, whatever the
     * context that cached it, else scans the context's terms and caches the
     * key it finds.
     */
    method GetPropertyNameFromId(c: Context, id: string) returns (r: string)
      requires Valid()
      modifies this
      ensures Valid()
      ensures id in old(propertyNameCache) && old(propertyNameCache)[id] != "" ==>
        r == old(propertyNameCache)[id] && propertyNameCache == old(propertyNameCache)
      ensures !(id in old(propertyNameCache) && old(propertyNameCache)[id] != "") ==> r == PropertyNameFromId(c, id)
      ensures old(CachedFor(c)) ==> CachedFor(c) && r == PropertyNameFromId(c, id)
    {
      if id in propertyNameCache && propertyNameCache[id] != "" {
        return propertyNameCache[id];
      }
      var i := 0;
      while i < |c.terms| && c.vocab + c.terms[i].1.Path() != id
        invariant i <= |c.terms|
        invariant forall j :: 0 <= j < i ==> c.vocab + c.terms[j].1.Path() != id
      {
        i := i + 1;
      }
      if i == |c.terms| {
        return id;
      }
      var k := KeyForIdFirst(c.vocab, c.terms, id);
      assert !(k < i) && !(i < k);
      r := c.terms[i].0;
      propertyNameCache := propertyNameCache[id := r];
    }

    /**
     * `getShortNameFromLabel`: the Digital Twin parser answers from its cache
     * when the label is there, null included, whatever the context that
     * cached it, and caches what it finds.
     */
    method GetShortNameFromLabel(c: Context, labelText: string) returns (r: Option<string>)
      requires Valid()
      modifies this
      ensures Valid()
      ensures variant == DigitalTwin && labelText in old(shortNameCache) ==>
        r == old(shortNameCache)[labelText] && shortNameCache == old(shortNameCache)
      ensures !(variant == DigitalTwin && labelText in old(shortNameCache)) ==> r == ShortNameFromLabel(variant, c, labelText)
      ensures old(CachedFor(c)) ==> CachedFor(c) && r == ShortNameFromLabel(variant, c, labelText)
    {
      if variant == DigitalTwin && labelText in shortNameCache {
        return shortNameCache[labelText];
      }
      var i := 0;
      while i < |c.terms| && c.terms[i].1.Path() != labelText
        invariant i <= |c.terms|
        invariant forall j :: 0 <= j < i ==> c.terms[j].1.Path() != labelText
      {
        i := i + 1;
      }
      if i < |c.terms| {
        KeyForLabelFirst(c.terms, labelText, i);
        r := Some(c.terms[i].0);
      } else if variant == DigitalTwin && '/' in labelText {
        r := None;
      } else {
        r := Some(labelText);
      }
      if variant == DigitalTwin {
        shortNameCache := shortNameCache[labelText := r];
      }
    }

    /** The search of `getCommentFromId`: the value of the first comment edge of `id`. */
    method FindComment(id: string) returns (r: Option<string>)
      ensures r == CommentFromId(edges, id)
    {
      var i := 0;
      while i < |edges| && !(edges[i].source.id == id && edges[i].relation == CommentLabel)
        invariant i <= |edges|
        invariant FirstComment(edges, id) == -1 || FirstComment(edges, id) >= i
      {
        i := i + 1;
      }
      r := if i < |edges| then edges[i].target.value else None;
    }

    /**
     * `getCommentFromId`: the value of the first comment edge. The Digital
     * Twin parser caches a missing comment as the empty string, so a repeated
     * call answers "" where the first answered nothing.
     */
    method GetCommentFromId(id: string) returns (r: Option<string>)
      requires Valid()
      modifies this
      ensures Valid() && ContextCaches() == old(ContextCaches())
      ensures variant == DigitalTwin && id in old(commentCache) ==>
        r == Some(old(commentCache)[id]) && commentCache == old(commentCache)
      ensures !(variant == DigitalTwin && id in old(commentCache)) ==> r == CommentFromId(edges, id)
      ensures (if r.Some? then r.value else "") == CommentText(edges, id)
    {
      if variant == DigitalTwin && id in commentCache {
        return Some(commentCache[id]);
      }
      r := FindComment(id);
      if variant == DigitalTwin {
        commentCache := commentCache[id := if r.Some? then r.value else ""];
      }
    }

    /**
     * `getPropertiesFromId`: gathers the names of the properties whose
     * domain is `id` and, recursively, those of its superclasses; the Digital
     * Twin parser answers from its cache whatever the context that filled it,
     * and fills it.
     */
    method GetPropertiesFromId(c: Context, id: string) returns (r: seq<string>)
      requires Valid()
      modifies this
      ensures Valid()
      ensures variant == DigitalTwin && id in old(propertiesCache) ==>
        r == old(propertiesCache)[id] && propertiesCache == old(propertiesCache)
      ensures old(CachedFor(c)) ==> CachedFor(c) && r == PropertiesFromId(c, edges, superRank, id)
      decreases superRank(id), 1
    {
      if variant == DigitalTwin && id in propertiesCache {
        return propertiesCache[id];
      }
      var properties := [];
      for k := 0 to |edges|
        invariant Valid()
        invariant old(CachedFor(c)) ==> CachedFor(c) && properties == PropertiesGathered(c, edges, superRank, id, k)
      {
        assert edges[k] in edges;
        var added := PropertiesOfEdge(c, id, edges[k]);
        properties := properties + added;
      }
      r := SortUnique(properties);
      if variant == DigitalTwin {
        propertiesCache := propertiesCache[id := r];
      }
    }

    /** One step of the property scan: the name a domain edge gives, or what a superclass has. */
    method PropertiesOfEdge(c: Context, id: string, e: GraphEdge) returns (added: seq<string>)
      requires Valid() && e in edges
      modifies this
      ensures Valid()
      ensures old(CachedFor(c)) ==> CachedFor(c) && added == PropertiesAdded(c, edges, superRank, id, e)
      decreases superRank(id), 0
    {
      added := [];
      if e.target.id == id && e.relation == DomainLabel {
        var name := GetPropertyNameFromId(c, e.source.id);
        added := [name];
      } else if e.source.id == id && e.relation == SubClassLabel {
        added := GetPropertiesFromId(c, e.target.id);
      }
    }

    /**
     * `getTypesFromId`: gathers the types of the ranges of `id` and of its
     * subclasses, falling back on the short name of its label; both parsers
     * answer from their cache whatever the context that filled it, and fill it.
     */
    method GetTypesFromId(c: Context, id: string) returns (r: seq<string>)
      requires Valid()
      modifies this
      ensures Valid()
      ensures id in old(typesCache) ==> r == old(typesCache)[id] && typesCache == old(typesCache)
      ensures old(CachedFor(c)) ==> CachedFor(c) && r == TypesFromId(variant, c, edges, typeRank, id)
      decreases typeRank(id), 2
    {
      if id in typesCache {
        return typesCache[id];
      }
      var types := GatherTypes(c, id);
      if types == [] {
        var shortName := GetShortNameFromLabel(c, LabelFromId(variant, c, id));
        if variant == DigitalTwin {
          types := if shortName.Some? && shortName.value != "" then [shortName.value] else [];
        } else {
          types := [shortName.value];
        }
      }
      r := SortUnique(types);
      typesCache := typesCache[id := r];
    }

    /** The loop of the type scan over every edge. */
    method GatherTypes(c: Context, id: string) returns (types: seq<string>)
      requires Valid()
      modifies this
      ensures Valid()
      ensures old(CachedFor(c)) ==> CachedFor(c) && types == TypesGathered(variant, c, edges, typeRank, id, |edges|)
      decreases typeRank(id), 1
    {
      types := [];
      for k := 0 to |edges|
        invariant Valid()
        invariant old(CachedFor(c)) ==> CachedFor(c) && types == TypesGathered(variant, c, edges, typeRank, id, k)
      {
        assert edges[k] in edges;
        var added := TypesOfEdge(c, id, edges[k]);
        types := types + added;
      }
    }

    /** One step of the type scan: the types of a range of `id` and of a subclass of it. */
    method TypesOfEdge(c: Context, id: string, e: GraphEdge) returns (added: seq<string>)
      requires Valid() && e in edges
      modifies this
      ensures Valid()
      ensures old(CachedFor(c)) ==> CachedFor(c) && added == TypesAdded(variant, c, edges, typeRank, id, e)
      decreases typeRank(id), 0
    {
      var fromRange := [];
      if e.source.id == id && e.relation == RangeLabel {
        fromRange := GetTypesFromId(c, e.target.id);
      }
      var fromSubclass := [];
      if e.target.id == id && e.relation == SubClassLabel {
        fromSubclass := GetTypesFromId(c, e.source.id);
      }
      added := fromRange + fromSubclass;
    }

    /**
     * `getStringValuesFromId`: gathers the values of the ranges, subclasses
     * and instances of `id`; with none, a class of objects has no values and
     * anything else its own short name. The Digital Twin parser caches.
     */
    method GetStringValuesFromId(id: string) returns (r: seq<string>)
      requires Valid()
      modifies this
      ensures Valid() && ContextCaches() == old(ContextCaches())
      ensures r == StringValuesFromId(edges, valueRank, id)
      ensures variant == DigitalTwin && id in old(stringValuesCache) ==>
        r == old(stringValuesCache)[id] && stringValuesCache == old(stringValuesCache)
      decreases valueRank(id), 2
    {
      if variant == DigitalTwin && id in stringValuesCache {
        return stringValuesCache[id];
      }
      var values, hasProperty := GatherStringValues(id);
      if values == [] && !hasProperty {
        var shortName := ShortNameFromId(id);
        if shortName != "" {
          values := [shortName];
        }
      }
      r := values;
      if variant == DigitalTwin {
        stringValuesCache := stringValuesCache[id := r];
      }
    }

    /** The loop of the string-value scan over every edge, noting whether a domain edge names `id`. */
    method GatherStringValues(id: string) returns (values: seq<string>, hasProperty: bool)
      requires Valid()
      modifies this
      ensures Valid() && ContextCaches() == old(ContextCaches())
      ensures values == ValuesGathered(edges, valueRank, id, |edges|)
      ensures hasProperty == HasDomainEdge(edges, id)
      decreases valueRank(id), 1
    {
      values := [];
      hasProperty := false;
      for k := 0 to |edges|
        invariant Valid() && ContextCaches() == old(ContextCaches())
        invariant values == ValuesGathered(edges, valueRank, id, k)
        invariant hasProperty == DomainEdgeBefore(edges, id, k)
      {
        assert edges[k] in edges;
        if edges[k].target.id == id && edges[k].relation == DomainLabel {
          hasProperty := true;
        }
        var added := ValuesOfEdge(id, edges[k]);
        values := values + added;
      }
      DomainEdgeBeforeAll(edges, id);
    }

    /** One step of the string-value scan: the values of a range, a subclass and an instance of `id`. */
    method ValuesOfEdge(id: string, e: GraphEdge) returns (added: seq<string>)
      requires Valid() && e in edges
      modifies this
      ensures Valid() && ContextCaches() == old(ContextCaches())
      ensures added == ValuesAdded(edges, valueRank, id, e)
      decreases valueRank(id), 0
    {
      var fromRange := [];
      if e.source.id == id && e.relation == RangeLabel {
        fromRange := GetStringValuesFromId(e.target.id);
      }
      var fromSubclass := [];
      if e.target.id == id && e.relation == SubClassLabel {
        fromSubclass := GetStringValuesFromId(e.source.id);
      }
      var fromInstance := [];
      if e.target.id == id && e.relation == TypeLabel {
        fromInstance := GetStringValuesFromId(e.source.id);
      }
      added := fromRange + fromSubclass + fromInstance;
    }

    /**
     * `getValueTypesFromId` of the Digital Twin parser: the primitive type
     * of each string value that names one, in order; cached.
     */
    method GetValueTypesFromId(id: string) returns (r: seq<string>)
      requires Valid()
      modifies this
      ensures Valid() && ContextCaches() == old(ContextCaches())
      ensures r == ValueTypesFromId(edges, valueRank, id)
      ensures id in old(valueTypesCache) ==> r == old(valueTypesCache)[id] && valueTypesCache == old(valueTypesCache)
    {
      if id == "" {
        return [];
      }
      if id in valueTypesCache {
        return valueTypesCache[id];
      }
      var values := GetStringValuesFromId(id);
      r := [];
      for i := 0 to |values|
        invariant r == ValueTypesOf(values[..i])
      {
        assert values[..i + 1][..i] == values[..i];
        var t := XmlValueType(values[i]);
        if t.Some? {
          r := r + [t.value];
        }
      }
      assert values[..|values|] == values;
      valueTypesCache := valueTypesCache[id := r];
    }

    /** `getValueTypeFromId` of the PnP parser: the one primitive type of a single string value, else empty. */
    method GetValueTypeFromId(id: string) returns (r: string)
      requires Valid()
      modifies this
      ensures Valid() && ContextCaches() == old(ContextCaches())
      ensures r == ValueTypeFromId(edges, valueRank, id)
    {
      if id == "" {
        return "";
      }
      var values := GetStringValuesFromId(id);
      r := PnPValueType(values);
    }

    /**
     * `getTypedPropertiesFromId`: an entry for each property of a class, in
     * the order of its properties; the Digital Twin parser answers from its
     * cache whatever the context that filled it, and fills it.
     */
    method GetTypedPropertiesFromId(c: Context, id: string) returns (r: seq<TypedProperty>)
      requires Valid()
      modifies this
      ensures Valid()
      ensures variant == DigitalTwin && id in old(typedPropertiesCache) ==>
        r == old(typedPropertiesCache)[id] && typedPropertiesCache == old(typedPropertiesCache)
      ensures old(CachedFor(c)) ==> CachedFor(c) && r == TypedPropertiesFromId(variant, c, edges, superRank, valueRank, id)
    {
      if variant == DigitalTwin && id in typedPropertiesCache {
        return typedPropertiesCache[id];
      }
      var keys := GetPropertiesFromId(c, id);
      var type_ := ShortNameFromId(id);
      var required := if type_ != "" then RequiredPropertiesFromType(type_) else [];
      r := TypedPropertiesFor(c, keys, required);
      if variant == DigitalTwin {
        typedPropertiesCache := typedPropertiesCache[id := r];
      }
    }

    /** The entries for a list of property keys, in order. */
    method TypedPropertiesFor(c: Context, keys: seq<string>, required: seq<string>) returns (r: seq<TypedProperty>)
      requires Valid()
      modifies this
      ensures Valid() && ContextCaches() == old(ContextCaches())
      ensures r == TypedPropertiesOf(variant, c, edges, valueRank, required, keys)
    {
      r := [];
      for i := 0 to |keys|
        invariant Valid() && ContextCaches() == old(ContextCaches())
        invariant r == TypedPropertiesOf(variant, c, edges, valueRank, required, keys[..i])
      {
        assert keys[..i + 1][..i] == keys[..i];
        TypedPropertiesOfStep(variant, c, edges, valueRank, required, keys[..i + 1]);
        TypedPropertyOfSpec(variant, c, edges, valueRank, required, keys[i]);
        var item := TypedPropertyFor(c, keys[i], required);
        if item.Some? {
          r := r + [item.value];
        }
      }
      assert keys[..|keys|] == keys;
    }

    /** The entry for one property key of `getTypedPropertiesFromId`. */
    method TypedPropertyFor(c: Context, key: string, required: seq<string>) returns (item: Option<TypedProperty>)
      requires Valid()
      modifies this
      ensures Valid() && ContextCaches() == old(ContextCaches())
      ensures item == TypedPropertyOf(variant, c, edges, valueRank, required, key)
    {
      var keyId := IdFromShortName(variant, c, key);
      if variant == DigitalTwin && (keyId.None? || keyId.value == "") {
        return None;
      }
      if IsArrayFromShortName(variant, key) {
        return Some(TypedProperty(key, if variant == DigitalTwin then Some(key in required) else None, "array"));
      }
      if variant == DigitalTwin {
        var valueTypes := GetValueTypesFromId(keyId.value);
        item := Some(TypedProperty(key, Some(key in required), if valueTypes != [] then valueTypes[0] else ""));
      } else {
        var valueType := GetValueTypeFromId(keyId.value);
        item := Some(TypedProperty(key, None, valueType));
      }
    }

    /**
     * `getTypedPropertiesFromType`: the Digital Twin parser reads `Interface`
     * in its interface context and `CapabilityModel` in its capability-model
     * context, any other type in the context given; then the entries of the
     * class the type names, none when its id is empty. A class whose entries
     * are cached is answered from the cache, whichever context filled it.
     */
    method GetTypedPropertiesFromType(c: Context, type_: string) returns (r: seq<TypedProperty>)
      requires Valid()
      modifies this
      ensures Valid()
      ensures var id := IdFromType(TypeContext(variant, c, interfaceCtx, modelCtx, type_), type_);
        variant == DigitalTwin && id != "" && id in old(typedPropertiesCache) ==> r == old(typedPropertiesCache)[id]
      ensures var read := TypeContext(variant, c, interfaceCtx, modelCtx, type_);
        old(CachedFor(read)) ==> CachedFor(read) && r == TypedPropertiesFromType(variant, c, interfaceCtx, modelCtx, edges, superRank, valueRank, type_)
    {
      var read := TypeContext(variant, c, interfaceCtx, modelCtx, type_);
      var id := IdFromType(read, type_);
      if id == "" {
        return [];
      }
      r := GetTypedPropertiesFromId(read, id);
    }

    /** `getPropertiesFromType`: the properties of the class a type names, none when its id is empty. */
    method GetPropertiesFromType(c: Context, type_: string) returns (r: seq<string>)
      requires Valid()
      modifies this
      ensures Valid()
      ensures IdFromType(c, type_) == "" ==> r == []
      ensures old(CachedFor(c)) ==> (CachedFor(c) &&
        r == (var id := IdFromType(c, type_); if id == "" then [] else PropertiesFromId(c, edges, superRank, id)))
    {
      var id := IdFromType(c, type_);
      if id == "" {
        return [];
      }
      r := GetPropertiesFromId(c, id);
    }

    /** `getTypesFromShortName`: the types of the id a short name resolves to, none when it resolves to nothing. */
    method GetTypesFromShortName(c: Context, shortName: string) returns (r: seq<string>)
      requires Valid()
      modifies this
      ensures Valid()
      ensures old(CachedFor(c)) ==> (CachedFor(c) &&
        r == (var id := IdFromShortName(variant, c, shortName);
              if id.None? || id.value == "" then [] else TypesFromId(variant, c, edges, typeRank, id.value)))
    {
      var id := IdFromShortName(variant, c, shortName);
      if id.None? || id.value == "" {
        return [];
      }
      r := GetTypesFromId(c, id.value);
    }

    /** `getTypesFromLabel`: the types of the id a label names, none when that id is empty. */
    method GetTypesFromLabel(c: Context, labelText: string) returns (r: seq<string>)
      requires Valid()
      modifies this
      ensures Valid()
      ensures old(CachedFor(c)) ==> (CachedFor(c) &&
        r == (var id := IdFromLabel(c, labelText); if id == "" then [] else TypesFromId(variant, c, edges, typeRank, id)))
    {
      var id := IdFromLabel(c, labelText);
      if id == "" {
        return [];
      }
      r := GetTypesFromId(c, id);
    }

    /**
     * `getStringValuesFromShortName`: the string values of the id a short
     * name resolves to; the Digital Twin parser gives `implements` none.
     */
    method GetStringValuesFromShortName(c: Context, shortName: string) returns (r: seq<string>)
      requires Valid()
      modifies this
      ensures Valid() && ContextCaches() == old(ContextCaches())
      ensures variant == DigitalTwin && shortName == "implements" ==> r == []
      ensures !(variant == DigitalTwin && shortName == "implements") ==>
        r == (var id := IdFromShortName(variant, c, shortName);
              if id.None? || id.value == "" then [] else StringValuesFromId(edges, valueRank, id.value))
      ensures r == StringValuesFromShortName(variant, c, edges, valueRank, shortName)
    {
      if variant == DigitalTwin && shortName == "implements" {
        return [];
      }
      var id := IdFromShortName(variant, c, shortName);
      if id.None? || id.value == "" {
        return [];
      }
      r := GetStringValuesFromId(id.value);
    }

    /** `getStringValuesFromLabel`: the string values of the id a label names, none when that id is empty. */
    method GetStringValuesFromLabel(c: Context, labelText: string) returns (r: seq<string>)
      requires Valid()
      modifies this
      ensures Valid() && ContextCaches() == old(ContextCaches())
      ensures r == (var id := IdFromLabel(c, labelText); if id == "" then [] else StringValuesFromId(edges, valueRank, id))
    {
      var id := IdFromLabel(c, labelText);
      if id == "" {
        return [];
      }
      r := GetStringValuesFromId(id);
    }
  }
}
