/**
 * The string helpers of src/DigitalTwin/pnp/src/common/utility.ts:
 * `replaceAll` over a table of keys, `enforceHttps`, the name validators and
 * the choice of a free file name in `createModelFile`.
 */
module CommonUtility {
  import opened Wrappers
  import opened Strings
  import DeviceModelManager

  /** The replacement table: keys and values in insertion order. */
  type Replacement = seq<(string, string)>

  /** Every key is non-empty (the keys become alternatives of one regular expression). */
  predicate NonEmptyKeys(replacement: Replacement)
  {
    forall i :: 0 <= i < |replacement| ==> replacement[i].0 != ""
  }

  /** Two texts equal, ignoring ASCII case when asked to. */
  predicate SameText(a: string, b: string, caseInsensitive: bool)
  {
    if caseInsensitive then ToLower(a) == ToLower(b) else a == b
  }

  /** The key `replacement[i]` matches at the start of `s`. */
  predicate MatchesAt(replacement: Replacement, i: int, s: string, caseInsensitive: bool)
    requires 0 <= i < |replacement|
  {
    |replacement[i].0| <= |s| && SameText(s[..|replacement[i].0|], replacement[i].0, caseInsensitive)
  }

  /** The alternative the regular expression takes at the start of `s`: the first key that matches there. */
  function FirstMatch(replacement: Replacement, s: string, caseInsensitive: bool): (r: Option<nat>)
    ensures r.Some? ==> r.value < |replacement| && MatchesAt(replacement, r.value, s, caseInsensitive)
    ensures r.Some? ==> forall j :: 0 <= j < r.value ==> !MatchesAt(replacement, j, s, caseInsensitive)
    ensures r.None? ==> forall j :: 0 <= j < |replacement| ==> !MatchesAt(replacement, j, s, caseInsensitive)
  {
    FirstMatchFrom(replacement, 0, s, caseInsensitive)
  }

  function FirstMatchFrom(replacement: Replacement, from: nat, s: string, caseInsensitive: bool): (r: Option<nat>)
    requires from <= |replacement|
    ensures r.Some? ==> from <= r.value < |replacement| && MatchesAt(replacement, r.value, s, caseInsensitive)
    ensures r.Some? ==> forall j :: from <= j < r.value ==> !MatchesAt(replacement, j, s, caseInsensitive)
    ensures r.None? ==> forall j :: from <= j < |replacement| ==> !MatchesAt(replacement, j, s, caseInsensitive)
    decreases |replacement| - from
  {
    if from == |replacement| then None
    else if MatchesAt(replacement, from, s, caseInsensitive) then Some(from)
    else FirstMatchFrom(replacement, from + 1, s, caseInsensitive)
  }

  /** `replacement.get(key)`. */
  function Lookup(replacement: Replacement, key: string): Option<string>
  {
    if |replacement| == 0 then None
    else if replacement[|replacement| - 1].0 == key then Some(replacement[|replacement| - 1].1)
    else Lookup(replacement[..|replacement| - 1], key)
  }

  /**
   * The replacement callback: the value stored for the exact matched text,
   * or the matched text itself when there is none or it is empty.
   */
  function Substitute(replacement: Replacement, matched: string): string
  {
    match Lookup(replacement, matched)
    case Some(v) => if v != "" then v else matched
    case None => matched
  }

  /**
   * `replaceAll`: scanning left to right, each match of a key is replaced
   * and scanning resumes after it; text where no key starts is copied, so
   * an empty table changes nothing.
   */
  function ReplaceAll(s: string, replacement: Replacement, caseInsensitive: bool): (r: string)
    requires NonEmptyKeys(replacement)
    ensures replacement == [] ==> r == s
    decreases |s|
  {
    if |s| == 0 then ""
    else
      match FirstMatch(replacement, s, caseInsensitive)
      case Some(i) =>
        var n := |replacement[i].0|;
        Substitute(replacement, s[..n]) + ReplaceAll(s[n..], replacement, caseInsensitive)
      case None =>
        assert s == [s[0]] + s[1..];
        [s[0]] + ReplaceAll(s[1..], replacement, caseInsensitive)
  }

  /** No key starts at any position of `s`. */
  predicate NoKeyIn(s: string, replacement: Replacement, caseInsensitive: bool)
  {
    forall k, j :: 0 <= k < |s| && 0 <= j < |replacement| ==> !MatchesAt(replacement, j, s[k..], caseInsensitive)
  }

  /** Text in which no key occurs comes back unchanged. */
  lemma {:induction false} ReplaceAllNoKey(s: string, replacement: Replacement, caseInsensitive: bool)
    requires NonEmptyKeys(replacement)
    requires NoKeyIn(s, replacement, caseInsensitive)
    ensures ReplaceAll(s, replacement, caseInsensitive) == s
    decreases |s|
  {
    if |s| > 0 {
      assert s[0..] == s;
      assert NoKeyIn(s[1..], replacement, caseInsensitive) by {
        forall k, j | 0 <= k < |s[1..]| && 0 <= j < |replacement|
          ensures !MatchesAt(replacement, j, s[1..][k..], caseInsensitive)
        {
          assert s[1..][k..] == s[k + 1..];
        }
      }
      ReplaceAllNoKey(s[1..], replacement, caseInsensitive);
    }
  }

  /**
   * A key at the front is replaced by its value, and the rest is replaced
   * on its own: with case-sensitive matching, when no earlier key of the
   * table matches there.
   */
  lemma ReplaceAllKeyFirst(key: string, value: string, rest: string, replacement: Replacement, i: nat)
    requires NonEmptyKeys(replacement) && i < |replacement| && replacement[i] == (key, value) && value != ""
    requires forall j :: 0 <= j < i ==> !MatchesAt(replacement, j, key + rest, false)
    requires Lookup(replacement, key) == Some(value)
    ensures ReplaceAll(key + rest, replacement, false) == value + ReplaceAll(rest, replacement, false)
  {
    var s := key + rest;
    assert s[..|key|] == key;
    assert s[|key|..] == rest;
    assert MatchesAt(replacement, i, s, false);
  }

  /** Two keys joined by a character that no key starts with: both are replaced (a case the source's own checks use). */
  lemma ReplaceAllTwoKeys(k1: string, v1: string, k2: string, v2: string, c: char, replacement: Replacement)
    requires replacement == [(k1, v1), (k2, v2)] && k1 != "" && k2 != "" && v1 != "" && v2 != ""
    requires k1 != k2 && k1[0] != c && k2[0] != c && !StartsWith(k1 + [c] + k2, k2) && !StartsWith([c] + k2, k1)
    requires !StartsWith(k2, k1) || k1 == k2
    ensures ReplaceAll(k1 + [c] + k2, replacement, false) == v1 + [c] + v2
  {
    var s := k1 + [c] + k2;
    var t := [c] + k2;
    assert s == k1 + t;
    assert Lookup(replacement, k1) == Some(v1);
    assert Lookup(replacement, k2) == Some(v2);
    ReplaceAllKeyFirst(k1, v1, t, replacement, 0);
    SeparatorCopied(k1, v1, k2, v2, c, replacement);
    assert k2 + "" == k2;
    ReplaceAllKeyFirst(k2, v2, "", replacement, 1);
  }

  /** The separator in front of the second key is copied, since no key starts with it. */
  lemma SeparatorCopied(k1: string, v1: string, k2: string, v2: string, c: char, replacement: Replacement)
    requires replacement == [(k1, v1), (k2, v2)] && k1 != "" && k2 != ""
    requires k1[0] != c && k2[0] != c
    ensures ReplaceAll([c] + k2, replacement, false) == [c] + ReplaceAll(k2, replacement, false)
  {
    var t := [c] + k2;
    assert !MatchesAt(replacement, 0, t, false) && !MatchesAt(replacement, 1, t, false);
    FrontCopied(t, replacement, false);
    assert t[1..] == k2;
  }

  /** A character where no key starts is copied, and the rest is replaced on its own. */
  lemma FrontCopied(t: string, replacement: Replacement, caseInsensitive: bool)
    requires NonEmptyKeys(replacement) && |t| > 0
    requires forall j :: 0 <= j < |replacement| ==> !MatchesAt(replacement, j, t, caseInsensitive)
    ensures ReplaceAll(t, replacement, caseInsensitive) == [t[0]] + ReplaceAll(t[1..], replacement, caseInsensitive)
  {
  }

  predicate IsLetter(c: char)
  {
    'a' <= c <= 'z' || 'A' <= c <= 'Z'
  }

  /** The length of the run of letters that starts the text. */
  function LetterRun(s: string): (n: nat)
    ensures n <= |s|
    ensures forall k :: 0 <= k < n ==> IsLetter(s[k])
    ensures n < |s| ==> !IsLetter(s[n])
  {
    if |s| == 0 || !IsLetter(s[0]) then 0 else 1 + LetterRun(s[1..])
  }

  /** The match of `^[a-zA-Z]+://`, as its length, if the text has a scheme. */
  function SchemePrefix(url: string): (r: Option<nat>)
    ensures r.Some? ==> 4 <= r.value <= |url| && url[r.value - 3..r.value] == "://"
    ensures r.Some? ==> forall k :: 0 <= k < r.value - 3 ==> IsLetter(url[k])
  {
    var n := LetterRun(url);
    if n > 0 && n + 3 <= |url| && url[n..n + 3] == "://" then Some(n + 3) else None
  }

  const HttpsProtocol := "https://"

  /** `enforceHttps`: any scheme is replaced by https; a URL without one gets it in front. */
  function EnforceHttps(url: string): (r: string)
    ensures StartsWith(r, HttpsProtocol)
    ensures SchemePrefix(url).None? ==> r == HttpsProtocol + url
    ensures SchemePrefix(url).Some? ==> r == HttpsProtocol + url[SchemePrefix(url).value..]
  {
    match SchemePrefix(url)
    case Some(n) => HttpsProtocol + url[n..]
    case None => HttpsProtocol + url
  }

  /** Enforcing https twice is the same as once. */
  lemma EnforceHttpsIdempotent(url: string)
    ensures EnforceHttps(EnforceHttps(url)) == EnforceHttps(url)
  {
    var r := EnforceHttps(url);
    var rest := r[8..];
    assert r == "https" + ("://" + rest);
    assert LetterRun(r) == 5 by {
      assert r[..5] == "https";
      LetterRunPrefix(r);
    }
    assert SchemePrefix(r) == Some(8);
    assert r[8..] == rest;
  }

  /** The letters of "https" followed by ':' make a run of five. */
  lemma LetterRunPrefix(r: string)
    requires |r| >= 6 && r[..5] == "https" && r[5] == ':'
    ensures LetterRun(r) == 5
  {
    assert r[1..][1..][1..][1..][1..][0] == ':';
  }

  const NotEmptyMessage := "could not be empty"

  /** `!name || name.trim() === ""`. */
  predicate IsBlank(name: string)
  {
    Trim(name) == ""
  }

  /** `validateNotEmpty`: a message exactly for an empty or blank name. */
  function ValidateNotEmpty(name: string, placeholder: string): (r: Option<string>)
    ensures r.Some? <==> forall i :: 0 <= i < |name| ==> IsSpace(name[i])
    ensures r.Some? ==> r.value == placeholder + " " + NotEmptyMessage
  {
    TrimEmpty(name);
    if IsBlank(name) then Some(placeholder + " " + NotEmptyMessage) else None
  }

  /** `^[a-zA-Z_][a-zA-Z0-9_]*$`. */
  predicate IsModelName(name: string)
  {
    |name| > 0 && (IsLetter(name[0]) || name[0] == '_') &&
    forall k :: 1 <= k < |name| ==> IsLetter(name[k]) || name[k] == '_' || '0' <= name[k] <= '9'
  }

  const ModelNameDescription := "alphanumeric and underscore, not start with number"

  /**
   * `validateModelName`, with the folder's existing file names given: the
   * first failing check's message, or nothing when the name is usable.
   */
  function ValidateModelName(name: string, t: DeviceModelManager.ModelType, folder: string, existing: set<string>): (r: Option<string>)
    ensures IsBlank(name) ==> r == Some("Name " + NotEmptyMessage)
    ensures !IsBlank(name) && !IsModelName(name) ==> r == Some("Name can only contain " + ModelNameDescription)
    ensures r.None? <==> IsModelName(name) && DeviceModelManager.GenerateModelFileName(name, t) !in existing
    ensures IsModelName(name) && DeviceModelManager.GenerateModelFileName(name, t) in existing ==>
      r == Some(DeviceModelManager.ModelTypeValue(t) + " " + name + " already exists in folder " + folder)
  {
    if IsBlank(name) then
      assert name != "" ==> !IsModelName(name) by {
        TrimEmpty(name);
        if name != "" {
          assert IsSpace(name[0]);
        }
      }
      Some("Name " + NotEmptyMessage)
    else if !IsModelName(name) then Some("Name can only contain " + ModelNameDescription)
    else if DeviceModelManager.GenerateModelFileName(name, t) in existing then
      Some(DeviceModelManager.ModelTypeValue(t) + " " + name + " already exists in folder " + folder)
    else None
  }

  /** The model name of a model id: every ':' made '_' and nothing else changed. */
  function ModelNameOf(modelId: string): (r: string)
    ensures |r| == |modelId|
    ensures forall k :: 0 <= k < |modelId| ==> r[k] == if modelId[k] == ':' then '_' else modelId[k]
  {
    ColonsReplaced(modelId);
    ReplaceAll(modelId, [(":", "_")], false)
  }

  /** Replacing ':' by '_' turns every ':' into '_' and changes nothing else. */
  lemma {:induction false} ColonsReplaced(modelId: string)
    ensures var r := ReplaceAll(modelId, [(":", "_")], false);
      |r| == |modelId| && forall k :: 0 <= k < |modelId| ==> r[k] == if modelId[k] == ':' then '_' else modelId[k]
    decreases |modelId|
  {
    if |modelId| > 0 {
      ColonsReplaced(modelId[1..]);
      var table := [(":", "_")];
      assert Lookup(table, ":") == Some("_");
      if modelId[0] == ':' {
        assert MatchesAt(table, 0, modelId, false);
        assert modelId[..1] == ":";
      } else {
        assert !MatchesAt(table, 0, modelId, false);
      }
    }
  }

  /** The n-th candidate file name: the plain name, then name_1, name_2, ... */
  function Candidate(modelName: string, t: DeviceModelManager.ModelType, counter: nat): string
  {
    DeviceModelManager.GenerateModelFileName(Numbered(modelName, counter), t)
  }

  /** Different counters give different candidates. */
  lemma CandidatesDistinct(modelName: string, t: DeviceModelManager.ModelType, i: nat, j: nat)
    requires i != j
    ensures Candidate(modelName, t, i) != Candidate(modelName, t, j)
  {
    if Candidate(modelName, t, i) == Candidate(modelName, t, j) {
      DeviceModelManager.GenerateModelFileNameInjective(Numbered(modelName, i), t, Numbered(modelName, j), t);
      NumberedInjective(modelName, i, j);
    }
  }

  /** The first `n` candidates, as a set. */
  function CandidateSet(modelName: string, t: DeviceModelManager.ModelType, n: nat): set<string>
  {
    if n == 0 then {} else CandidateSet(modelName, t, n - 1) + {Candidate(modelName, t, n - 1)}
  }

  /** The first `n` candidates are `n` different names, all among the existing ones if each is. */
  lemma {:induction false} CandidateSetSize(modelName: string, t: DeviceModelManager.ModelType, n: nat, existing: set<string>)
    requires forall k :: 0 <= k < n ==> Candidate(modelName, t, k) in existing
    ensures |CandidateSet(modelName, t, n)| == n
    ensures CandidateSet(modelName, t, n) <= existing
    ensures forall x :: x in CandidateSet(modelName, t, n) ==> exists k :: 0 <= k < n && x == Candidate(modelName, t, k)
  {
    if n > 0 {
      CandidateSetSize(modelName, t, n - 1, existing);
      var c := Candidate(modelName, t, n - 1);
      if c in CandidateSet(modelName, t, n - 1) {
        var k :| 0 <= k < n - 1 && c == Candidate(modelName, t, k);
        CandidatesDistinct(modelName, t, k, n - 1);
      }
    }
  }

  /** While every candidate so far is taken, there are more taken names than candidates tried. */
  lemma CandidatesBounded(modelName: string, t: DeviceModelManager.ModelType, n: nat, existing: set<string>)
    requires forall k :: 0 <= k < n ==> Candidate(modelName, t, k) in existing
    ensures n <= |existing|
  {
    CandidateSetSize(modelName, t, n, existing);
    SubsetSize(CandidateSet(modelName, t, n), existing);
  }

  /**
   * The file-name loop of `createModelFile`: the first candidate that is
   * not already in the folder. An unknown model type fails first.
   */
  method ChooseModelFileName(modelId: string, modelType: string, existing: set<string>) returns (r: Result<string>)
    ensures DeviceModelManager.ConvertToModelType(modelType).None? <==> r.Err?
    ensures r.Ok? ==> r.value !in existing
    ensures r.Ok? ==> exists n: nat ::
      (r.value == Candidate(ModelNameOf(modelId), DeviceModelManager.ConvertToModelType(modelType).value, n) &&
       forall k :: 0 <= k < n ==> Candidate(ModelNameOf(modelId), DeviceModelManager.ConvertToModelType(modelType).value, k) in existing)
  {
    var t := DeviceModelManager.ConvertToModelType(modelType);
    if t.None? {
      return Err("");
    }
    var modelName := ModelNameOf(modelId);
    var counter: nat := 0;
    var candidate := Candidate(modelName, t.value, counter);
    while candidate in existing
      invariant candidate == Candidate(modelName, t.value, counter)
      invariant forall k :: 0 <= k < counter ==> Candidate(modelName, t.value, k) in existing
      invariant counter <= |existing|
      decreases |existing| - counter
    {
      CandidatesBounded(modelName, t.value, counter + 1, existing);
      counter := counter + 1;
      candidate := Candidate(modelName, t.value, counter);
    }
    r := Ok(candidate);
  }

  lemma SubsetSize(a: set<string>, b: set<string>)
    requires a <= b
    ensures |a| <= |b|
  {
    var c := b - a;
    assert b == a + c;
  }
}
