/**
 * The static name builders of
 * src/DigitalTwin/pnp/src/deviceModel/deviceModelManager.ts: model types,
 * model ids, and model and template file names.
 */
module DeviceModelManager {
  import opened Wrappers
  import opened Strings

  /** `ModelType`: its members and their string values. */
  datatype ModelType = Interface | CapabilityModel

  function ModelTypeValue(t: ModelType): string
  {
    match t
    case Interface => "Interface"
    case CapabilityModel => "Capability Model"
  }

  /** The enum's member names. */
  function ModelTypeKey(t: ModelType): string
  {
    match t
    case Interface => "Interface"
    case CapabilityModel => "CapabilityModel"
  }

  /** `convertToModelType`: the member with that name, if there is one. */
  function ConvertToModelType(name: string): (r: Option<ModelType>)
    ensures r.Some? <==> name == "Interface" || name == "CapabilityModel"
    ensures r.Some? ==> ModelTypeKey(r.value) == name
  {
    if name == "Interface" then Some(Interface)
    else if name == "CapabilityModel" then Some(CapabilityModel)
    else None
  }

  /** Looking up a member's own name gives the member back. */
  lemma ConvertModelTypeKey(t: ModelType)
    ensures ConvertToModelType(ModelTypeKey(t)) == Some(t)
  {
  }

  /** `generateModelId`: the placeholder company name and version 1 around the model name. */
  function GenerateModelId(name: string): (r: string)
    ensures |r| == |name| + 20
    ensures StartsWith(r, "urn:{companyName}:") && EndsWith(r, ":1")
    ensures r[18..|r| - 2] == name
  {
    "urn:{companyName}:" + name + ":1"
  }

  /** Text with no white-space character. */
  predicate NoSpace(s: string)
  {
    forall i :: 0 <= i < |s| ==> !IsSpace(s[i])
  }

  /** `s.replace(/\s+/g, "")`: every white-space character removed. */
  function RemoveWhitespace(s: string): (r: string)
    ensures NoSpace(r)
    ensures |r| <= |s|
  {
    if |s| == 0 then ""
    else (if IsSpace(s[0]) then "" else [s[0]]) + RemoveWhitespace(s[1..])
  }

  /** Text without white space is left as it is. */
  lemma {:induction false} RemoveWhitespaceNone(s: string)
    requires NoSpace(s)
    ensures RemoveWhitespace(s) == s
  {
    if |s| > 0 {
      RemoveWhitespaceNone(s[1..]);
    }
  }

  /** Removing white space piece by piece. */
  lemma {:induction false} RemoveWhitespaceAppend(a: string, b: string)
    ensures RemoveWhitespace(a + b) == RemoveWhitespace(a) + RemoveWhitespace(b)
  {
    if |a| > 0 {
      assert (a + b)[1..] == a[1..] + b;
      RemoveWhitespaceAppend(a[1..], b);
    } else {
      assert a + b == b;
    }
  }

  /** The file type of a model type's value: without white space, in lower case. */
  function FileType(typeValue: string): string
  {
    ToLower(RemoveWhitespace(typeValue))
  }

  /** The file type of the Interface value. */
  lemma FileTypeInterface(value: string)
    requires value == "Interface"
    ensures FileType(value) == "interface"
  {
    RemoveWhitespaceNone(value);
  }

  /** The file type of two words around one space: both words lowered, joined. */
  lemma FileTypeOfWords(a: string, sp: string, b: string)
    requires NoSpace(a) && NoSpace(b)
    requires sp == [' ']
    ensures FileType(a + sp + b) == ToLower(a) + ToLower(b)
  {
    RemoveSpaceBetween(a, sp, b);
    ToLowerAppend(a, b);
  }

  /** One space between two words is the only white space removed. */
  lemma RemoveSpaceBetween(a: string, sp: string, b: string)
    requires NoSpace(a) && NoSpace(b)
    requires sp == [' ']
    ensures RemoveWhitespace(a + sp + b) == a + b
  {
    RemoveWhitespaceAppend(a, sp);
    RemoveWhitespaceNone(a);
    RemoveSingleSpace(sp);
    assert RemoveWhitespace(a + sp) == a;
    RemoveWhitespaceAppend(a + sp, b);
    RemoveWhitespaceNone(b);
  }

  /** A single space is removed entirely. */
  lemma RemoveSingleSpace(sp: string)
    requires sp == [' ']
    ensures RemoveWhitespace(sp) == ""
  {
    assert sp[1..] == "";
  }

  /** Lowering the two words of the value. */
  lemma LowerWord(a: string, b: string)
    requires a == "Capability" && b == "Model"
    ensures ToLower(a) + ToLower(b) == "capabilitymodel"
  {
    var la, lb := ToLower(a), ToLower(b);
    assert la == "capability";
    assert lb == "model";
  }

  /** Lowering text piece by piece. */
  lemma ToLowerAppend(a: string, b: string)
    ensures ToLower(a + b) == ToLower(a) + ToLower(b)
  {
    var l := ToLower(a + b);
    assert forall i :: 0 <= i < |a| ==> l[i] == LowerChar(a[i]);
    assert forall i :: |a| <= i < |a| + |b| ==> l[i] == LowerChar(b[i - |a|]);
  }

  /** The two file types. */
  lemma FileTypeValues(t: ModelType)
    ensures FileType(ModelTypeValue(t)) == (if t == Interface then "interface" else "capabilitymodel")
  {
    if t == Interface {
      FileTypeInterface(ModelTypeValue(t));
    } else {
      assert ModelTypeValue(t) == "Capability" + " " + "Model";
      FileTypeOfWords("Capability", " ", "Model");
      LowerWord("Capability", "Model");
    }
  }

  /** `generateModelFileName`: "<name>.<file type>.json". */
  function GenerateModelFileName(name: string, t: ModelType): (r: string)
    ensures StartsWith(r, name + ".") && EndsWith(r, "." + FileType(ModelTypeValue(t)) + ".json")
  {
    var r := name + "." + FileType(ModelTypeValue(t)) + ".json";
    assert r[|r| - |"." + FileType(ModelTypeValue(t)) + ".json"|..] == "." + FileType(ModelTypeValue(t)) + ".json";
    r
  }

  /** The file name's sixth character from the end is the last letter of its type. */
  lemma FileNameTypeLetter(name: string, t: ModelType)
    ensures var f := GenerateModelFileName(name, t);
      |f| == |name| + |FileType(ModelTypeValue(t))| + 6 &&
      f[|f| - 6] == (if t == Interface then 'e' else 'l')
  {
    FileTypeValues(t);
  }

  /** Different models or different types never share a file name. */
  lemma GenerateModelFileNameInjective(n1: string, t1: ModelType, n2: string, t2: ModelType)
    requires GenerateModelFileName(n1, t1) == GenerateModelFileName(n2, t2)
    ensures n1 == n2 && t1 == t2
  {
    FileNameTypeLetter(n1, t1);
    FileNameTypeLetter(n2, t2);
    var f := GenerateModelFileName(n1, t1);
    assert t1 == t2;
    assert n1 == f[..|n1|];
  }

  const SampleFileName := "sample"

  /** `getTemplateFileName`: the model file name of "sample". */
  function GetTemplateFileName(t: ModelType): (r: string)
    ensures r == SampleFileName + "." + (if t == Interface then "interface" else "capabilitymodel") + ".json"
  {
    FileTypeValues(t);
    GenerateModelFileName(SampleFileName, t)
  }
}
