/**
 * The single-object checks of the model validators (src/DigitalTwin/
 * DigitalTwinDiagnostic.ts and src/pnp/PnPDiagnostic.ts): string values
 * against their allowed values and patterns, repeated element names,
 * missing and unexpected properties, and the entries of an `@type`. Each
 * check is a loop over the JSON value proved against a function that says
 * which issues it must report.
 */
module DiagnosticChecks {
  import opened Wrappers
  import opened Strings
  import opened JsonValues
  import Language
  import opened MetaModelGraph
  import opened MetaModelJsonParser

  /** An issue: the first and the last index of the text it is about, and its message. */
  datatype Issue = Issue(startIndex: int, endIndex: int, message: string)

  /** An issue about the whole of a span. */
  function IssueAt(span: Language.Span, message: string): Issue
  {
    Issue(span.startIndex, span.EndIndex(), message)
  }

  // ----- allowed string values ------------------------------------------------

  /** A string compared as `_isValidStringValue` compares it: lower-cased when the check ignores case. */
  function Normalized(s: string, caseInsensitive: bool): string
  {
    if caseInsensitive then ToLower(s) else s
  }

  /** Some allowed value equals the value, both normalised. */
  predicate ValidStringValue(value: string, range: seq<string>, caseInsensitive: bool)
  {
    exists t :: t in range && Normalized(t, caseInsensitive) == Normalized(value, caseInsensitive)
  }

  /** `_isValidStringValue`: scans the allowed values for one equal to the value. */
  method IsValidStringValue(value: string, range: seq<string>, caseInsensitive: bool) returns (r: bool)
    ensures r == ValidStringValue(value, range, caseInsensitive)
  {
    var v := if caseInsensitive then ToLower(value) else value;
    for i := 0 to |range|
      invariant forall j :: 0 <= j < i ==> Normalized(range[j], caseInsensitive) != v
    {
      var testValue := if caseInsensitive then ToLower(range[i]) else range[i];
      if testValue == v {
        assert range[i] in range;
        return true;
      }
    }
    return false;
  }

  /** Compared with case, a value is valid exactly when it is one of the allowed values. */
  lemma CaseSensitiveIsMembership(value: string, range: seq<string>)
    ensures ValidStringValue(value, range, false) <==> value in range
  {
  }

  /** Lower-casing twice is lower-casing once. */
  lemma ToLowerIdempotent(s: string)
    ensures ToLower(ToLower(s)) == ToLower(s)
  {
  }

  /**
   * Ignoring case accepts every value accepted with case, and a value is
   * accepted exactly when its lower-case form is.
   */
  lemma CaseInsensitiveWidens(value: string, range: seq<string>)
    ensures ValidStringValue(value, range, false) ==> ValidStringValue(value, range, true)
    ensures ValidStringValue(ToLower(value), range, true) <==> ValidStringValue(value, range, true)
  {
    ToLowerIdempotent(value);
  }

  // ----- string patterns ------------------------------------------------------

  /** A letter, a digit or the underscore: the class `[a-zA-Z0-9_]`. */
  predicate IsWordChar(c: char)
  {
    'a' <= c <= 'z' || 'A' <= c <= 'Z' || '0' <= c <= '9' || c == '_'
  }

  /** A character that the regular expression `.` does not match. */
  predicate IsLineTerminator(c: char)
  {
    c == '\n' || c == '\r' || c == '\U{2028}' || c == '\U{2029}'
  }

  /** `/^[a-zA-Z0-9_]+$/`. */
  predicate MatchesNamePattern(s: string)
  {
    |s| >= 1 && forall i :: 0 <= i < |s| ==> IsWordChar(s[i])
  }

  /** The length of the scheme prefix `http://` or `https://`, 0 when there is none. */
  function SchemeLength(s: string): (r: nat)
    ensures r == 0 || r == 7 || r == 8
    ensures r == 7 <==> StartsWith(s, "http://")
    ensures r == 8 <==> StartsWith(s, "https://")
  {
    if StartsWith(s, "http://") then
      assert s[..7][4] == ':';
      7
    else if StartsWith(s, "https://") then 8
    else 0
  }

  /**
   * `/^(http|https):\/\/.+\.interface\/.json$/` as written: a scheme, at
   * least one character, `.interface/`, any one character, then `json`.
   */
  predicate MatchesImplementsPatternAsWritten(s: string)
  {
    var p := SchemeLength(s);
    p > 0 && |s| >= p + 1 + 16 &&
    s[|s| - 16..|s| - 5] == ".interface/" && s[|s| - 4..] == "json" &&
    forall i :: p <= i < |s| ==> !IsLineTerminator(s[i])
  }

  /**
   * What the pattern evidently means, the reading the document-type test
   * `/\.interface\.json$/` also uses: a scheme, at least one character,
   * then `.interface.json`.
   */
  predicate MatchesImplementsPattern(s: string)
  {
    var p := SchemeLength(s);
    p > 0 && |s| >= p + 1 + 15 && EndsWith(s, ".interface.json") &&
    forall i :: p <= i < |s| - 15 ==> !IsLineTerminator(s[i])
  }

  /**
   * The written pattern refuses the URL of an interface file and accepts a
   * name no interface file has.
   */
  lemma ImplementsPatternAsWrittenMisses()
    ensures !MatchesImplementsPatternAsWritten("http://x.interface.json")
    ensures MatchesImplementsPattern("http://x.interface.json")
    ensures MatchesImplementsPatternAsWritten("http://x.interface/.json")
    ensures !MatchesImplementsPattern("http://x.interface/.json")
  {
    InterfaceUrlRefused("http://x.interface.json");
    SlashNameAccepted("http://x.interface/.json");
  }

  /** The URL of an interface file fails the written pattern and passes the intended one. */
  lemma InterfaceUrlRefused(good: string)
    requires good == "http://x.interface.json"
    ensures !MatchesImplementsPatternAsWritten(good) && MatchesImplementsPattern(good)
  {
    assert |good| == 23 && good[..7] == "http://";
    assert good[8..] == ".interface.json";
    assert good[7..18][0] == 'x';
  }

  /** A name ending in `.interface/.json` passes the written pattern and fails the intended one. */
  lemma SlashNameAccepted(bad: string)
    requires bad == "http://x.interface/.json"
    ensures MatchesImplementsPatternAsWritten(bad) && !MatchesImplementsPattern(bad)
  {
    assert |bad| == 24 && bad[..7] == "http://";
    assert bad[8..19] == ".interface/" && bad[20..] == "json";
    assert bad[9..][0] == 'i';
  }

  /** The intended pattern accepts exactly a scheme, a one-line name and the `.interface.json` ending. */
  lemma ImplementsPatternSpec(scheme: string, middle: string)
    requires scheme == "http://" || scheme == "https://"
    requires |middle| >= 1 && forall i :: 0 <= i < |middle| ==> !IsLineTerminator(middle[i])
    ensures MatchesImplementsPattern(scheme + middle + ".interface.json")
  {
    var s := scheme + middle + ".interface.json";
    assert s[..|scheme|] == scheme;
    if scheme == "http://" {
      assert !StartsWith(s, "https://") by {
        assert s[4] == ':';
      }
    }
    assert s[|s| - 15..] == ".interface.json";
    forall i | |scheme| <= i < |s| - 15
      ensures !IsLineTerminator(s[i])
    {
      assert s[i] == middle[i - |scheme|];
    }
  }

  /** The source text of a pattern, as the regular expression prints itself. */
  function PatternText(p: StringPattern): string
  {
    match p
    case NamePattern => "/^[a-zA-Z0-9_]+$/"
    case ImplementsPattern => "/^(http|https):\\/\\/.+\\.interface\\/.json$/"
  }

  /** `pattern.test(value)`, with the `implements` pattern read as intended. */
  predicate PatternMatches(p: StringPattern, value: string)
  {
    match p
    case NamePattern => MatchesNamePattern(value)
    case ImplementsPattern => MatchesImplementsPattern(value)
  }

  /**
   * `getStringPatternIssues`: one issue over the whole string when the key
   * has a pattern the string does not match, else none.
   */
  function StringPatternIssues(v: Value, key: string): (r: seq<Issue>)
    requires v.StringValue?
    ensures |r| <= 1
    ensures r != [] <==> StringValuePattern(key).Some? && !PatternMatches(StringValuePattern(key).value, v.str)
  {
    match StringValuePattern(key)
    case Some(p) =>
      if !PatternMatches(p, v.str) then
        [IssueAt(v.span, "Invalid value. Valid value must match this regular expression " + PatternText(p))]
      else []
    case None => []
  }

  // ----- repeated element names ---------------------------------------------

  /** The `name` of an array element: the string value of an object's `name` property. */
  function ElementName(e: Value): (r: Option<Value>)
    ensures r.Some? ==> r.value.StringValue?
  {
    if e.ObjectValue? && IsPropertyList(e.properties) then
      match GetPropertyValue(e, "name")
      case Some(n) => if n.StringValue? then Some(n) else None
      case None => None
    else None
  }

  /** The element has the name `name`. */
  predicate NamedAs(e: Value, name: string)
  {
    ElementName(e).Some? && ElementName(e).value.str == name
  }

  /** The names met so far, the first time each is met: the `names` list of `getArrayElementNameIssues`. */
  function NamesSeen(es: seq<Value>): (r: seq<string>)
  {
    if es == [] then []
    else
      var front := NamesSeen(es[..|es| - 1]);
      var n := ElementName(es[|es| - 1]);
      if n.Some? && n.value.str !in front then front + [n.value.str] else front
  }

  /** The element at `i` has a name an earlier element already has. */
  predicate Repeats(es: seq<Value>, i: nat)
    requires i < |es|
  {
    ElementName(es[i]).Some? && exists j :: 0 <= j < i && NamedAs(es[j], ElementName(es[i]).value.str)
  }

  /** The issue on a repeated name. */
  function RepeatedNameIssue(n: Value): Issue
    requires n.StringValue?
  {
    IssueAt(n.span, n.str + " has already been assigned to another item.")
  }

  /**
   * What `getArrayElementNameIssues` must report: one issue, on the name, for
   * every element whose name an earlier element already has, in order; the
   * first element with a name is never flagged.
   */
  function NameIssues(es: seq<Value>): seq<Issue>
  {
    if es == [] then []
    else
      NameIssues(es[..|es| - 1]) +
      if Repeats(es, |es| - 1) then [RepeatedNameIssue(ElementName(es[|es| - 1]).value)] else []
  }

  /** The names seen are exactly the names some element has, each once. */
  lemma {:induction false} NamesSeenSpec(es: seq<Value>)
    ensures forall name :: name in NamesSeen(es) <==> exists j :: 0 <= j < |es| && NamedAs(es[j], name)
    ensures forall i, j :: 0 <= i < j < |NamesSeen(es)| ==> NamesSeen(es)[i] != NamesSeen(es)[j]
  {
    if es != [] {
      var front := es[..|es| - 1];
      NamesSeenSpec(front);
      forall name | exists j :: 0 <= j < |es| && NamedAs(es[j], name)
        ensures name in NamesSeen(es)
      {
        var j :| 0 <= j < |es| && NamedAs(es[j], name);
        if j < |es| - 1 {
          assert front[j] == es[j];
        }
      }
      forall name | name in NamesSeen(es)
        ensures exists j :: 0 <= j < |es| && NamedAs(es[j], name)
      {
        if name in NamesSeen(front) {
          var j :| 0 <= j < |front| && NamedAs(front[j], name);
          assert es[j] == front[j];
        } else {
          assert NamedAs(es[|es| - 1], name);
        }
      }
    }
  }

  /** The last element repeats a name exactly when that name was seen before it. */
  lemma RepeatsSeen(es: seq<Value>)
    requires es != []
    ensures ElementName(es[|es| - 1]).Some? ==>
      (Repeats(es, |es| - 1) <==> ElementName(es[|es| - 1]).value.str in NamesSeen(es[..|es| - 1]))
  {
    var front := es[..|es| - 1];
    NamesSeenSpec(front);
    if ElementName(es[|es| - 1]).Some? {
      var name := ElementName(es[|es| - 1]).value.str;
      if Repeats(es, |es| - 1) {
        var j :| 0 <= j < |es| - 1 && NamedAs(es[j], name);
        assert front[j] == es[j];
      }
      if name in NamesSeen(front) {
        var j :| 0 <= j < |front| && NamedAs(front[j], name);
        assert es[j] == front[j];
      }
    }
  }

  /** The number of elements that have a name. */
  function NamedCount(es: seq<Value>): nat
  {
    if es == [] then 0 else NamedCount(es[..|es| - 1]) + if ElementName(es[|es| - 1]).Some? then 1 else 0
  }

  /** Every named element either adds its name to those seen or is reported: never both, never neither. */
  lemma {:induction false} NameIssuesCount(es: seq<Value>)
    ensures |NameIssues(es)| + |NamesSeen(es)| == NamedCount(es)
  {
    if es != [] {
      NameIssuesCount(es[..|es| - 1]);
      RepeatsSeen(es);
    }
  }

  /** `getArrayElementNameIssues`: records each new name and reports each repeated one. */
  method ArrayElementNameIssues(elements: seq<Value>) returns (issues: seq<Issue>)
    ensures issues == NameIssues(elements)
  {
    issues := [];
    var names := [];
    for i := 0 to |elements|
      invariant names == NamesSeen(elements[..i])
      invariant issues == NameIssues(elements[..i])
    {
      var prefix := elements[..i + 1];
      assert prefix[..i] == elements[..i];
      RepeatsSeen(prefix);
      var nameValue := ElementName(elements[i]);
      if nameValue.Some? {
        var name := nameValue.value.str;
        if name in names {
          issues := issues + [RepeatedNameIssue(nameValue.value)];
        } else {
          names := names + [name];
        }
      }
    }
    assert elements[..|elements|] == elements;
  }

  // ----- missing required properties ------------------------------------------

  /** The required properties the object lacks, in the order they are required. */
  function MissingProperties(obj: Value, required: seq<string>): (r: seq<string>)
    requires obj.ObjectValue? && IsPropertyList(obj.properties)
    ensures |r| <= |required|
  {
    if required == [] then []
    else
      var last := required[|required| - 1];
      MissingProperties(obj, required[..|required| - 1]) + if HasProperty(obj, last) then [] else [last]
  }

  /** A property is missing exactly when it is required and the object has no property of that name. */
  lemma {:induction false} MissingPropertiesSpec(obj: Value, required: seq<string>)
    requires obj.ObjectValue? && IsPropertyList(obj.properties)
    ensures forall p :: p in MissingProperties(obj, required) <==> p in required && !HasProperty(obj, p)
  {
    if required != [] {
      var front := required[..|required| - 1];
      MissingPropertiesSpec(obj, front);
      assert required == front + [required[|required| - 1]];
    }
  }

  /** The message head before the list of missing properties. */
  const MissingHead := "Missing required properties:\n"

  /** The issue naming the missing properties, one per line, placed at the object's first index. */
  function MissingIssue(obj: Value, missing: seq<string>): Issue
  {
    Issue(obj.span.startIndex, obj.span.startIndex, MissingHead + Join(missing, "\n"))
  }

  /** A property named in the list holds an empty array, so the object leaves a required list empty. */
  predicate EmptyRequired(obj: Value, required: seq<string>, name: string)
    requires obj.ObjectValue? && IsPropertyList(obj.properties)
  {
    name in required && GetPropertyValue(obj, name).Some? &&
    GetPropertyValue(obj, name).value.ArrayValue? && GetPropertyValue(obj, name).value.elements == []
  }

  /** The issue on a required property whose value is an empty array, placed at the array's first index. */
  function EmptyArrayIssue(name: string, value: Value): Issue
  {
    Issue(value.span.startIndex, value.span.startIndex, name + " cannot be empty.")
  }

  /** One issue for each listed property name that leaves a required list empty, in order. */
  function EmptyArrayIssues(obj: Value, required: seq<string>, names: seq<string>): seq<Issue>
    requires obj.ObjectValue? && IsPropertyList(obj.properties)
  {
    if names == [] then []
    else
      var name := names[|names| - 1];
      EmptyArrayIssues(obj, required, names[..|names| - 1]) +
      if EmptyRequired(obj, required, name) then [EmptyArrayIssue(name, GetPropertyValue(obj, name).value)] else []
  }

  /** `issue` is the empty-array issue of one of `names` that leaves a required list empty. */
  predicate IsEmptyArrayIssueOf(obj: Value, required: seq<string>, names: seq<string>, issue: Issue)
    requires obj.ObjectValue? && IsPropertyList(obj.properties)
  {
    exists n :: n in names && EmptyRequired(obj, required, n) && issue == EmptyArrayIssue(n, GetPropertyValue(obj, n).value)
  }

  /** The empty-array issues are exactly those of the listed names that leave a required list empty. */
  lemma {:induction false} EmptyArrayIssuesSpec(obj: Value, required: seq<string>, names: seq<string>)
    requires obj.ObjectValue? && IsPropertyList(obj.properties)
    ensures forall issue :: issue in EmptyArrayIssues(obj, required, names) ==> IsEmptyArrayIssueOf(obj, required, names, issue)
    ensures forall n :: n in names && EmptyRequired(obj, required, n) ==>
      EmptyArrayIssue(n, GetPropertyValue(obj, n).value) in EmptyArrayIssues(obj, required, names)
  {
    if names != [] {
      var front := names[..|names| - 1];
      var last := names[|names| - 1];
      EmptyArrayIssuesSpec(obj, required, front);
      assert names == front + [last];
      var f := EmptyArrayIssues(obj, required, front);
      forall issue | issue in EmptyArrayIssues(obj, required, names)
        ensures IsEmptyArrayIssueOf(obj, required, names, issue)
      {
        if issue in f {
          var n :| n in front && EmptyRequired(obj, required, n) && issue == EmptyArrayIssue(n, GetPropertyValue(obj, n).value);
          assert n in names;
        } else {
          assert last in names;
        }
      }
    }
  }

  /**
   * What `getMissingRequiredPropertiesIssues` must report: a single issue
   * listing every missing required property, when any is missing, then an
   * issue for each required property whose value is an empty array.
   */
  function MissingRequiredIssues(obj: Value, required: seq<string>): seq<Issue>
    requires obj.ObjectValue? && IsPropertyList(obj.properties)
  {
    var missing := MissingProperties(obj, required);
    (if missing != [] then [MissingIssue(obj, missing)] else []) +
    EmptyArrayIssues(obj, required, PropertyNames(obj))
  }

  /**
   * When no required name holds a line break, the missing properties can be
   * read back from the message, one per line.
   */
  lemma MissingMessageLists(obj: Value, required: seq<string>)
    requires obj.ObjectValue? && IsPropertyList(obj.properties)
    requires forall p :: p in required ==> '\n' !in p
    requires MissingProperties(obj, required) != []
    ensures var m := MissingIssue(obj, MissingProperties(obj, required)).message;
      StartsWith(m, MissingHead) && Split(m[|MissingHead|..], '\n') == MissingProperties(obj, required)
  {
    var missing := MissingProperties(obj, required);
    MissingPropertiesSpec(obj, required);
    assert forall i :: 0 <= i < |missing| ==> missing[i] in missing;
    SplitJoin(missing, '\n');
    var m := MissingHead + Join(missing, "\n");
    assert m[..|MissingHead|] == MissingHead;
    assert m[|MissingHead|..] == Join(missing, "\n");
  }

  /** The loop over the required properties that collects the missing ones. */
  method CollectMissing(obj: Value, required: seq<string>) returns (missing: seq<string>)
    requires obj.ObjectValue? && IsPropertyList(obj.properties)
    ensures missing == MissingProperties(obj, required)
  {
    missing := [];
    for i := 0 to |required|
      invariant missing == MissingProperties(obj, required[..i])
    {
      assert required[..i + 1][..i] == required[..i];
      if !HasProperty(obj, required[i]) {
        missing := missing + [required[i]];
      }
    }
    assert required[..|required|] == required;
  }

  /** `getMissingRequiredPropertiesIssues`. */
  method MissingRequiredPropertiesIssues(obj: Value, required: seq<string>) returns (issues: seq<Issue>)
    requires obj.ObjectValue? && IsPropertyList(obj.properties)
    ensures issues == MissingRequiredIssues(obj, required)
  {
    issues := [];
    var missing := CollectMissing(obj, required);
    if missing != [] {
      issues := [MissingIssue(obj, missing)];
    }
    var head := issues;
    var names := PropertyNames(obj);
    for i := 0 to |names|
      invariant issues == head + EmptyArrayIssues(obj, required, names[..i])
    {
      assert names[..i + 1][..i] == names[..i];
      var name := names[i];
      if name in required {
        var value := GetPropertyValue(obj, name);
        if value.Some? && value.value.ArrayValue? && value.value.elements == [] {
          issues := issues + [EmptyArrayIssue(name, value.value)];
        }
      }
    }
    assert names[..|names|] == names;
  }

  // ----- unexpected properties ------------------------------------------------

  /** The index of the first property named `name`, or the number of properties when none is. */
  function FirstNamed(props: seq<Value>, name: string): (r: nat)
    requires IsPropertyList(props)
    ensures r <= |props|
    ensures r < |props| ==> NameOf(props[r]) == name
    ensures forall j :: 0 <= j < r ==> NameOf(props[j]) != name
  {
    if props == [] then 0
    else if NameOf(props[0]) == name then 0
    else
      assert IsPropertyList(props[1..]);
      1 + FirstNamed(props[1..], name)
  }

  /** A property of the name exists, so the first one is found. */
  lemma FirstNamedFound(props: seq<Value>, name: string, i: nat)
    requires IsPropertyList(props) && i < |props| && NameOf(props[i]) == name
    ensures FirstNamed(props, name) <= i
  {
  }

  /** The issue on an unexpected property name. */
  function UnexpectedIssue(nameValue: Value, name: string): Issue
  {
    IssueAt(nameValue.span, name + " is unexpected.")
  }

  /**
   * The issues of `getUnexpectedPropertiesIssues` as written: the i-th
   * distinct property name, when not allowed, is reported at the name of the
   * i-th property, which is another property once a name repeats.
   */
  function UnexpectedIssuesAsWritten(obj: Value, allowed: seq<string>, n: nat): seq<Issue>
    requires obj.ObjectValue? && IsPropertyList(obj.properties)
    requires n <= |PropertyNames(obj)|
  {
    if n == 0 then []
    else
      var name := PropertyNames(obj)[n - 1];
      UnexpectedIssuesAsWritten(obj, allowed, n - 1) +
      if name !in allowed then [UnexpectedIssue(obj.properties[n - 1].name, name)] else []
  }

  /**
   * The unexpected-property issues as intended: each of the first `n`
   * property names that is not allowed, reported at the name of the first
   * property that has it.
   */
  function UnexpectedIssues(obj: Value, allowed: seq<string>, n: nat): seq<Issue>
    requires obj.ObjectValue? && IsPropertyList(obj.properties)
    requires n <= |PropertyNames(obj)|
  {
    if n == 0 then []
    else
      var name := PropertyNames(obj)[n - 1];
      UnexpectedIssues(obj, allowed, n - 1) +
      if name !in allowed then [UnexpectedIssue(obj.properties[FirstNamedIn(obj, name)].name, name)] else []
  }

  /** The index of the first property with one of the object's property names. */
  function FirstNamedIn(obj: Value, name: string): (r: nat)
    requires obj.ObjectValue? && IsPropertyList(obj.properties)
    requires name in PropertyNames(obj)
    ensures r < |obj.properties| && NameOf(obj.properties[r]) == name
    ensures forall j :: 0 <= j < r ==> NameOf(obj.properties[j]) != name
  {
    PropertyNamesAreKeys(obj, name);
    var i :| 0 <= i < |obj.properties| && NameOf(obj.properties[i]) == name;
    FirstNamedFound(obj.properties, name, i);
    FirstNamed(obj.properties, name)
  }

  /** `issue` reports a property whose name is not allowed, at that property's name. */
  predicate IsUnexpectedIssue(obj: Value, allowed: seq<string>, issue: Issue)
    requires obj.ObjectValue? && IsPropertyList(obj.properties)
  {
    exists i :: 0 <= i < |obj.properties| && NameOf(obj.properties[i]) !in allowed &&
      issue == UnexpectedIssue(obj.properties[i].name, NameOf(obj.properties[i]))
  }

  /**
   * Every issue reports a property name that is not allowed, at the name of
   * a property bearing it, and every such name is reported at the name of
   * the first property bearing it.
   */
  lemma {:induction false} UnexpectedIssuesSpec(obj: Value, allowed: seq<string>, n: nat)
    requires obj.ObjectValue? && IsPropertyList(obj.properties)
    requires n <= |PropertyNames(obj)|
    ensures forall issue :: issue in UnexpectedIssues(obj, allowed, n) ==> IsUnexpectedIssue(obj, allowed, issue)
    ensures forall m :: m in PropertyNames(obj)[..n] && m !in allowed ==>
      UnexpectedIssue(obj.properties[FirstNamedIn(obj, m)].name, m) in UnexpectedIssues(obj, allowed, n)
  {
    if n > 0 {
      var names := PropertyNames(obj);
      UnexpectedIssuesSpec(obj, allowed, n - 1);
      assert names[..n] == names[..n - 1] + [names[n - 1]];
      if names[n - 1] !in allowed {
        var i := FirstNamedIn(obj, names[n - 1]);
        assert IsUnexpectedIssue(obj, allowed, UnexpectedIssue(obj.properties[i].name, names[n - 1]));
      }
    }
  }

  /** The first property of each distinct name is the property at that name's own index when no name repeats. */
  lemma {:induction false} NamesOfUnique(props: seq<Value>)
    requires IsPropertyList(props)
    requires |NamesOf(props)| == |props|
    ensures forall i :: 0 <= i < |props| ==> NamesOf(props)[i] == NameOf(props[i])
  {
    if props != [] {
      var front := props[..|props| - 1];
      NamesAtMost(front);
      assert IsPropertyList(front);
      NamesOfUnique(front);
      forall i | 0 <= i < |props| - 1
        ensures props[i] == front[i]
      {
      }
    }
  }

  /** Without a repeated property name, the written loop reports each name at its own property. */
  lemma {:induction false} UnexpectedAsWrittenWithoutDuplicates(obj: Value, allowed: seq<string>, n: nat)
    requires obj.ObjectValue? && IsPropertyList(obj.properties)
    requires |PropertyNames(obj)| == |obj.properties| && n <= |obj.properties|
    ensures UnexpectedIssuesAsWritten(obj, allowed, n) == UnexpectedIssues(obj, allowed, n)
  {
    var names := PropertyNames(obj);
    if n > 0 {
      UnexpectedAsWrittenWithoutDuplicates(obj, allowed, n - 1);
      NamesOfUnique(obj.properties);
      var name := names[n - 1];
      assert NameOf(obj.properties[n - 1]) == name;
      var f := FirstNamedIn(obj, name);
      assert names[f] == name;
      assert f == n - 1 by {
        assert !(f < n - 1) && !(f > n - 1);
      }
    }
  }

  /** The property names of the example object are `a` and `b`. */
  lemma DuplicateKeyNames()
    ensures IsPropertyList(DuplicateKeyObject().properties)
    ensures PropertyNames(DuplicateKeyObject()) == ["a", "b"]
  {
    var props := DuplicateKeyObject().properties;
    assert props[..1][..0] == [];
    assert props[..2][..1] == props[..1];
    assert props[..3][..2] == props[..2];
    assert NamesOf(props[..1]) == ["a"];
    assert NamesOf(props[..2]) == ["a"];
    assert props[..3] == props;
  }

  /**
   * With a repeated name the written loop misplaces its issue: for
   * `{"a": 1, "a": 2, "b": 3}` with only `a` allowed, `b` is reported at the
   * name of the second property, which is `a`; the intended report is at
   * the third.
   */
  lemma UnexpectedAsWrittenMisplaced()
    ensures var obj := DuplicateKeyObject();
      IsPropertyList(obj.properties) && |PropertyNames(obj)| == 2 &&
      UnexpectedIssuesAsWritten(obj, ["a"], 2) == [UnexpectedIssue(obj.properties[1].name, "b")] &&
      NameOf(obj.properties[1]) == "a" &&
      UnexpectedIssues(obj, ["a"], 2) == [UnexpectedIssue(obj.properties[2].name, "b")]
  {
    var obj := DuplicateKeyObject();
    DuplicateKeyNames();
    assert UnexpectedIssuesAsWritten(obj, ["a"], 1) == [];
    assert UnexpectedIssues(obj, ["a"], 1) == [];
    assert FirstNamedIn(obj, "b") == 2;
  }

  /** The object `{"a": 1, "a": 2, "b": 3}`, one character per position. */
  function DuplicateKeyObject(): Value
  {
    ObjectValue(Language.Span(0, 26), [NumberProperty(1, "a", "1"), NumberProperty(9, "a", "2"), NumberProperty(17, "b", "3")])
  }

  /** The property `"name": value` written from index `at`. */
  function NumberProperty(at: int, name: string, value: string): Value
  {
    PropertyValue(Language.Span(at, 7), StringValue(Language.Span(at, 3), name), NumberValue(Language.Span(at + 5, 1), value))
  }

  /** `getUnexpectedPropertiesIssues`, reporting each unexpected name at its first property. */
  method UnexpectedPropertiesIssues(obj: Value, allowed: seq<string>) returns (issues: seq<Issue>)
    requires obj.ObjectValue? && IsPropertyList(obj.properties)
    ensures issues == UnexpectedIssues(obj, allowed, |PropertyNames(obj)|)
  {
    var names := PropertyNames(obj);
    issues := [];
    for i := 0 to |names|
      invariant issues == UnexpectedIssues(obj, allowed, i)
    {
      var property := names[i];
      if property !in allowed {
        var first := FirstNamedIn(obj, property);
        var k := 0;
        while NameOf(obj.properties[k]) != property
          invariant 0 <= k <= first
          decreases first - k
        {
          k := k + 1;
        }
        issues := issues + [UnexpectedIssue(obj.properties[k].name, property)];
      }
    }
  }

  /** The allowed properties of one type: its typed properties, read in the context it switches to, and its required ones. */
  function TypeAllowed(variant: Variant, ctx: Context, interfaceCtx: Context, modelCtx: Context, edges: seq<GraphEdge>, superRank: string -> nat, valueRank: string -> nat, t: string): seq<string>
    requires SuperclassRanked(edges, superRank) && ValueRanked(edges, valueRank)
  {
    Labels(TypedPropertiesFromType(variant, ctx, interfaceCtx, modelCtx, edges, superRank, valueRank, t)) + RequiredPropertiesFromType(t)
  }

  /** The allowed properties of a list of types. */
  function AllowedOf(variant: Variant, ctx: Context, interfaceCtx: Context, modelCtx: Context, edges: seq<GraphEdge>, superRank: string -> nat, valueRank: string -> nat, types: seq<string>): seq<string>
    requires SuperclassRanked(edges, superRank) && ValueRanked(edges, valueRank)
  {
    ConcatMap(types, t requires SuperclassRanked(edges, superRank) && ValueRanked(edges, valueRank) =>
      TypeAllowed(variant, ctx, interfaceCtx, modelCtx, edges, superRank, valueRank, t))
  }

  /** A property is allowed exactly when one of the types has it as a typed or a required property. */
  lemma AllowedOfSpec(variant: Variant, ctx: Context, interfaceCtx: Context, modelCtx: Context, edges: seq<GraphEdge>, superRank: string -> nat, valueRank: string -> nat, types: seq<string>, p: string)
    requires SuperclassRanked(edges, superRank) && ValueRanked(edges, valueRank)
    ensures p in AllowedOf(variant, ctx, interfaceCtx, modelCtx, edges, superRank, valueRank, types) <==>
      exists t :: t in types && p in TypeAllowed(variant, ctx, interfaceCtx, modelCtx, edges, superRank, valueRank, t)
  {
    ConcatMapSpec(types, t requires SuperclassRanked(edges, superRank) && ValueRanked(edges, valueRank) =>
      TypeAllowed(variant, ctx, interfaceCtx, modelCtx, edges, superRank, valueRank, t), p);
  }

  /**
   * The allowed properties `getUnexpectedPropertiesIssues` gathers from the
   * parser for each type of the object, asking in the object's context `c`;
   * duplicates are kept, since only membership is asked of the list. While
   * every type is read in `c` and the parser's caches agree with `c`, the
   * list is the one the meta-model gives.
   */
  method AllowedProperties(parser: MetaModelParser, c: Context, types: seq<string>) returns (allowed: seq<string>)
    requires parser.Valid()
    modifies parser
    ensures parser.Valid()
    ensures (forall t <- types :: TypeContext(parser.variant, c, parser.interfaceCtx, parser.modelCtx, t) == c) && old(parser.CachedFor(c)) ==>
      allowed == AllowedOf(parser.variant, c, parser.interfaceCtx, parser.modelCtx, parser.edges, parser.superRank, parser.valueRank, types)
  {
    ghost var agreed := (forall t <- types :: TypeContext(parser.variant, c, parser.interfaceCtx, parser.modelCtx, t) == c) && parser.CachedFor(c);
    allowed := [];
    for i := 0 to |types|
      invariant parser.Valid()
      invariant agreed ==> (parser.CachedFor(c) &&
        allowed == AllowedOf(parser.variant, c, parser.interfaceCtx, parser.modelCtx, parser.edges, parser.superRank, parser.valueRank, types[..i]))
    {
      assert types[..i + 1][..i] == types[..i];
      assert types[..i + 1][i] == types[i];
      var typed := parser.GetTypedPropertiesFromType(c, types[i]);
      allowed := allowed + (Labels(typed) + RequiredPropertiesFromType(types[i]));
    }
    assert types[..|types|] == types;
  }

  // ----- the entries of @type ---------------------------------------------------

  /** The entry at `i` names the same type as an earlier entry: `type.indexOf(t) !== i`. */
  predicate RepeatsType(names: seq<string>, i: nat)
    requires i < |names|
  {
    names[i] in names[..i]
  }

  /** The issue on an `@type` entry that is not a valid type. */
  function InvalidTypeIssue(span: Language.Span, types: seq<string>): Issue
  {
    IssueAt(span, "Invalid type. Valid types:\n" + Join(types, "\n"))
  }

  /**
   * What the array case of `getInvalidTypeIssues` must report, given the
   * entries' type names and spans: an issue on each entry that is not a
   * valid type, and on each later entry that repeats a valid one.
   */
  function TypeEntryIssues(names: seq<string>, spans: seq<Language.Span>, types: seq<string>): seq<Issue>
    requires |names| == |spans|
  {
    if names == [] then []
    else
      var i := |names| - 1;
      TypeEntryIssues(names[..i], spans[..i], types) +
      if names[i] !in types then [InvalidTypeIssue(spans[i], types)]
      else if RepeatsType(names, i) then [IssueAt(spans[i], names[i] + " has already been added before.")]
      else []
  }

  /**
   * The loop over an `@type` array in `getInvalidTypeIssues`: an entry
   * that is not a valid type is reported as invalid, and an entry whose
   * first occurrence lies before it (`indexOf` is not its own index) as
   * added before.
   */
  method TypeArrayIssues(names: seq<string>, spans: seq<Language.Span>, types: seq<string>) returns (issues: seq<Issue>)
    requires |names| == |spans|
    ensures issues == TypeEntryIssues(names, spans, types)
  {
    issues := [];
    for index := 0 to |names|
      invariant issues == TypeEntryIssues(names[..index], spans[..index], types)
    {
      var currentType := names[index];
      ghost var front, frontSpans := names[..index + 1], spans[..index + 1];
      assert front[..index] == names[..index] && frontSpans[..index] == spans[..index];
      if currentType !in types {
        issues := issues + [InvalidTypeIssue(spans[index], types)];
      } else if currentType in names[..index] {
        issues := issues + [IssueAt(spans[index], currentType + " has already been added before.")];
      }
    }
    assert names[..|names|] == names && spans[..|spans|] == spans;
  }

  /** Every entry names a valid type. */
  predicate AllValidTypes(names: seq<string>, types: seq<string>)
  {
    forall i :: 0 <= i < |names| ==> names[i] in types
  }

  /** No two entries name the same type. */
  predicate NoRepeatedType(names: seq<string>)
  {
    forall i, j :: 0 <= i < j < |names| ==> names[i] != names[j]
  }

  /** A list of entries draws no issue exactly when every entry is a valid type and no type repeats. */
  lemma {:induction false} TypeEntryIssuesNone(names: seq<string>, spans: seq<Language.Span>, types: seq<string>)
    requires |names| == |spans|
    ensures TypeEntryIssues(names, spans, types) == [] <==> AllValidTypes(names, types) && NoRepeatedType(names)
  {
    if names != [] {
      var n := |names| - 1;
      TypeEntryIssuesNone(names[..n], spans[..n], types);
      TypeEntriesGrow(names, types);
    }
  }

  /** The entries are valid and unrepeated exactly when the ones before the last are and the last is valid and new. */
  lemma TypeEntriesGrow(names: seq<string>, types: seq<string>)
    requires |names| > 0
    ensures AllValidTypes(names, types) && NoRepeatedType(names) <==>
      AllValidTypes(names[..|names| - 1], types) && NoRepeatedType(names[..|names| - 1]) &&
      names[|names| - 1] in types && !RepeatsType(names, |names| - 1)
  {
    var n := |names| - 1;
    var front := names[..n];
    if RepeatsType(names, n) {
      var j :| 0 <= j < n && front[j] == names[n];
      assert names[j] == names[n];
    }
    if AllValidTypes(front, types) && NoRepeatedType(front) && names[n] in types && !RepeatsType(names, n) {
      forall i, j | 0 <= i < j < |names|
        ensures names[i] != names[j]
      {
        if j < n {
          assert front[i] == names[i] && front[j] == names[j];
        } else {
          assert names[i] == front[i];
        }
      }
    }
  }
}
