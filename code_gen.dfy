/**
 * The version logic of the three code-generator front ends:
 * src/DigitalTwin/CodeGeneratorCore.ts, src/DigitalTwin/CodeGenerateCore.ts
 * and src/pnp/CodeGenerateCore.ts. All three compare versions with the same
 * three-part loop, pick a generator release from a downloaded list, and
 * decide whether the local generator must be installed or upgraded. The
 * Digital Twin front end also picks a free project name and remembers the
 * last generation per capability model.
 */
module CodeGen {
  import opened Wrappers
  import opened Strings

  const VersionSeparator := '.'

  predicate IsDigits(s: string)
  {
    forall k :: 0 <= k < |s| ==> '0' <= s[k] <= '9'
  }

  /**
   * `Number(parts[i])`: a part past the end is `undefined` and a part that
   * is not a decimal numeral reads as NaN (`None`); the empty part reads
   * as 0.
   */
  function JsNumber(parts: seq<string>, i: nat): (r: Option<nat>)
    ensures r.Some? <==> i < |parts| && IsDigits(parts[i])
  {
    if i < |parts| && IsDigits(parts[i]) then Some(DigitsValue(parts[i])) else None
  }

  /**
   * The result of `compareVersion` from part `i` on: the first of the
   * parts `i`..2 on which both numbers exist and differ decides; a NaN on
   * either side compares neither greater nor smaller and is passed over.
   */
  function VersionOrder(version1: string, version2: string, i: nat): (r: int)
    ensures -1 <= r <= 1
    decreases 3 - i
  {
    if i >= 3 then 0
    else
      var a := JsNumber(Split(version1, VersionSeparator), i);
      var b := JsNumber(Split(version2, VersionSeparator), i);
      if a.Some? && b.Some? && a.value > b.value then 1
      else if a.Some? && b.Some? && a.value < b.value then -1
      else VersionOrder(version1, version2, i + 1)
  }

  /**
   * `compareVersion` of the two Digital Twin front ends: 1, -1 or 0 as the
   * first version is newer, older or neither.
   */
  method CompareVersion(version1: string, version2: string) returns (r: int)
    ensures r == VersionOrder(version1, version2, 0)
  {
    var ver1 := Split(version1, VersionSeparator);
    var ver2 := Split(version2, VersionSeparator);
    var i := 0;
    while i < 3
      invariant 0 <= i <= 3
      invariant VersionOrder(version1, version2, 0) == VersionOrder(version1, version2, i)
    {
      var v1 := JsNumber(ver1, i);
      var v2 := JsNumber(ver2, i);
      if v1.Some? && v2.Some? && v1.value > v2.value {
        return 1;
      }
      if v1.Some? && v2.Some? && v1.value < v2.value {
        return -1;
      }
      i := i + 1;
    }
    r := 0;
  }

  /** `compareVersion` of the Plug and Play front end: whether the first version is strictly newer. */
  method IsNewerVersion(version1: string, version2: string) returns (r: bool)
    ensures r <==> VersionOrder(version1, version2, 0) == 1
  {
    var ver1 := Split(version1, VersionSeparator);
    var ver2 := Split(version2, VersionSeparator);
    var i := 0;
    while i < 3
      invariant 0 <= i <= 3
      invariant VersionOrder(version1, version2, 0) == VersionOrder(version1, version2, i)
    {
      var v1 := JsNumber(ver1, i);
      var v2 := JsNumber(ver2, i);
      if v1.Some? && v2.Some? && v1.value > v2.value {
        return true;
      }
      if v1.Some? && v2.Some? && v1.value < v2.value {
        return false;
      }
      i := i + 1;
    }
    r := false;
  }

  /** Every version compares equal to itself. */
  lemma {:induction false} VersionOrderReflexive(version: string, i: nat)
    ensures VersionOrder(version, version, i) == 0
    decreases 3 - i
  {
    if i < 3 {
      VersionOrderReflexive(version, i + 1);
    }
  }

  /** Swapping the versions negates the result, for any two texts. */
  lemma {:induction false} VersionOrderAntisymmetric(version1: string, version2: string, i: nat)
    ensures VersionOrder(version1, version2, i) == -VersionOrder(version2, version1, i)
    decreases 3 - i
  {
    if i < 3 {
      VersionOrderAntisymmetric(version1, version2, i + 1);
    }
  }

  /** `/^[0-9]+\.[0-9]+\.[0-9]+$/`: three non-empty digit runs separated by dots. */
  predicate IsRelease(version: string)
  {
    var parts := Split(version, VersionSeparator);
    |parts| == 3 && forall k :: 0 <= k < 3 ==> |parts[k]| >= 1 && IsDigits(parts[k])
  }

  /** The three numbers of a release version. */
  function Triple(version: string): (r: (nat, nat, nat))
    requires IsRelease(version)
  {
    var parts := Split(version, VersionSeparator);
    (DigitsValue(parts[0]), DigitsValue(parts[1]), DigitsValue(parts[2]))
  }

  /** Lexicographic order of number triples, as 1, -1 or 0. */
  function TripleOrder(a: (nat, nat, nat), b: (nat, nat, nat)): int
  {
    if a.0 != b.0 then (if a.0 > b.0 then 1 else -1)
    else if a.1 != b.1 then (if a.1 > b.1 then 1 else -1)
    else if a.2 != b.2 then (if a.2 > b.2 then 1 else -1)
    else 0
  }

  /** On release versions, `compareVersion` is the lexicographic order of their number triples. */
  lemma ReleaseOrder(version1: string, version2: string)
    requires IsRelease(version1) && IsRelease(version2)
    ensures VersionOrder(version1, version2, 0) == TripleOrder(Triple(version1), Triple(version2))
  {
    assert VersionOrder(version1, version2, 3) == 0;
  }

  /** On release versions the order is transitive, so sorting by it is meaningful. */
  lemma ReleaseOrderTransitive(a: string, b: string, c: string)
    requires IsRelease(a) && IsRelease(b) && IsRelease(c)
    requires VersionOrder(a, b, 0) >= 0 && VersionOrder(b, c, 0) >= 0
    ensures VersionOrder(a, c, 0) >= 0
  {
    ReleaseOrder(a, b);
    ReleaseOrder(b, c);
    ReleaseOrder(a, c);
  }

  /** A generator release in the downloaded configuration (download locations left out). */
  datatype ConfigItem = ConfigItem(codeGeneratorVersion: string, iotWorkbenchMinimalVersion: string)

  /** The list after the reverse-order sort: no later item is newer than an earlier one. */
  predicate NewestFirst(items: seq<ConfigItem>)
  {
    forall i, j :: 0 <= i < j < |items| ==> VersionOrder(items[j].codeGeneratorVersion, items[i].codeGeneratorVersion, 0) <= 0
  }

  /** The extension version is at least the item's minimal version. */
  predicate Supports(extensionVersion: string, item: ConfigItem)
  {
    VersionOrder(extensionVersion, item.iotWorkbenchMinimalVersion, 0) >= 0
  }

  /**
   * The target selection of `getCodeGenCliPackageInfo` and of the Digital
   * Twin `UpgradeCodeGenerator`, on the list as sorted: a pre-release
   * extension takes the first item; a release takes the first item whose
   * minimal version it meets; otherwise there is no target.
   */
  method SelectConfigItem(extensionVersion: string, items: seq<ConfigItem>) returns (target: Option<ConfigItem>)
    ensures !IsRelease(extensionVersion) ==> target == if |items| > 0 then Some(items[0]) else None
    ensures IsRelease(extensionVersion) ==>
      (target.None? <==> forall i :: 0 <= i < |items| ==> !Supports(extensionVersion, items[i]))
    ensures IsRelease(extensionVersion) && target.Some? ==>
      exists p :: 0 <= p < |items| && target.value == items[p] && Supports(extensionVersion, items[p]) &&
        forall q :: 0 <= q < p ==> !Supports(extensionVersion, items[q])
  {
    if !IsRelease(extensionVersion) {
      return if |items| > 0 then Some(items[0]) else None;
    }
    target := None;
    for i := 0 to |items|
      invariant forall q :: 0 <= q < i ==> !Supports(extensionVersion, items[q])
    {
      var order := CompareVersion(extensionVersion, items[i].iotWorkbenchMinimalVersion);
      if order >= 0 {
        target := Some(items[i]);
        return;
      }
    }
  }

  /**
   * On a newest-first list, the first supported item is the newest of all
   * supported items.
   */
  lemma FirstSupportedIsNewest(extensionVersion: string, items: seq<ConfigItem>, p: nat, q: nat)
    requires NewestFirst(items) && p < |items| && q < |items|
    requires Supports(extensionVersion, items[p]) && Supports(extensionVersion, items[q])
    requires forall k :: 0 <= k < p ==> !Supports(extensionVersion, items[k])
    ensures VersionOrder(items[p].codeGeneratorVersion, items[q].codeGeneratorVersion, 0) >= 0
  {
    if q == p {
      VersionOrderReflexive(items[p].codeGeneratorVersion, 0);
    } else {
      VersionOrderAntisymmetric(items[p].codeGeneratorVersion, items[q].codeGeneratorVersion, 0);
    }
  }

  datatype CodeGenCliOperation = NoOperation | Install | Upgrade

  /**
   * `installOrUpgradeCodeGenCli`: no local generator means Install; a
   * target newer than the local one means Upgrade; otherwise nothing.
   */
  function CliOperation(targetVersion: string, currentVersion: Option<string>): (r: CodeGenCliOperation)
    ensures r == Install <==> currentVersion.None?
    ensures r == Upgrade <==> currentVersion.Some? && VersionOrder(targetVersion, currentVersion.value, 0) > 0
  {
    if currentVersion.None? then Install
    else if VersionOrder(targetVersion, currentVersion.value, 0) > 0 then Upgrade
    else NoOperation
  }

  /** The installed version itself is never upgraded to, and an upgrade never goes back. */
  lemma CliOperationForward(targetVersion: string, currentVersion: string)
    ensures CliOperation(currentVersion, Some(currentVersion)) == NoOperation
    ensures CliOperation(targetVersion, Some(currentVersion)) == Upgrade ==>
      VersionOrder(currentVersion, targetVersion, 0) == -1
  {
    VersionOrderReflexive(currentVersion, 0);
    VersionOrderAntisymmetric(targetVersion, currentVersion, 0);
  }

  /**
   * The hash check of `downloadAndInstallCodeGenCli`: a matching hash goes
   * on (`None`); a corrupted package aborts code generation on a first
   * install and lets it go on with the old generator on an upgrade.
   */
  function HashCheck(operation: CodeGenCliOperation, hashValue: string, md5Value: string): (r: Option<bool>)
    ensures r.None? <==> hashValue == md5Value
    ensures r.Some? ==> (r.value <==> operation != Install)
  {
    if hashValue != md5Value then Some(operation != Install) else None
  }

  /**
   * The upgrade test of the Digital Twin `UpgradeCodeGenerator` and of the
   * Plug and Play front end: the tool folder is missing, no version is
   * recorded (an empty one counts as none), or the configuration offers a
   * strictly newer one.
   */
  function NeedUpgrade(toolFolderExists: bool, currentVersion: Option<string>, configVersion: string): (r: bool)
    ensures r <==> (!toolFolderExists || currentVersion.None? || currentVersion.value == "" ||
      VersionOrder(configVersion, currentVersion.value, 0) == 1)
  {
    !toolFolderExists || currentVersion.None? || currentVersion.value == "" ||
      VersionOrder(configVersion, currentVersion.value, 0) == 1
  }

  /** With the tool in place, a recorded version is never replaced by itself or by an older one. */
  lemma NeedUpgradeForward(configVersion: string, currentVersion: string)
    requires currentVersion != ""
    ensures !NeedUpgrade(true, Some(currentVersion), currentVersion)
    ensures NeedUpgrade(true, Some(currentVersion), configVersion) ==> VersionOrder(currentVersion, configVersion, 0) == -1
  {
    VersionOrderReflexive(currentVersion, 0);
    VersionOrderAntisymmetric(configVersion, currentVersion, 0);
  }

  /** The suffix of a capability-model file name. */
  const CapabilityModelSuffix := ".capabilitymodel.json"

  /** The characters JavaScript's `.` does not match. */
  predicate IsLineTerminator(c: char)
  {
    c == '\n' || c == '\r' || c == '\U{2028}' || c == '\U{2029}'
  }

  /**
   * `/^(.*?)\.(capabilitymodel)\.json$/` and the test on its first group:
   * the name before the suffix, when the fileLabel ends in the suffix and that
   * name is non-empty and on one line.
   */
  function FileCoreName(fileLabel: string): (r: Option<string>)
    ensures r.Some? ==> r.value != "" && r.value + CapabilityModelSuffix == fileLabel
    ensures r.Some? ==> forall k :: 0 <= k < |r.value| ==> !IsLineTerminator(r.value[k])
  {
    if |fileLabel| > |CapabilityModelSuffix| && fileLabel[|fileLabel| - |CapabilityModelSuffix|..] == CapabilityModelSuffix then
      var name := fileLabel[..|fileLabel| - |CapabilityModelSuffix|];
      if forall k :: 0 <= k < |name| ==> !IsLineTerminator(name[k]) then
        assert name + CapabilityModelSuffix == fileLabel;
        Some(name)
      else None
    else None
  }

  /** Every non-empty one-line name comes back from its file name. */
  lemma FileCoreNameRoundTrip(name: string)
    requires name != "" && forall k :: 0 <= k < |name| ==> !IsLineTerminator(name[k])
    ensures FileCoreName(name + CapabilityModelSuffix) == Some(name)
  {
    var fileLabel := name + CapabilityModelSuffix;
    assert fileLabel[|fileLabel| - |CapabilityModelSuffix|..] == CapabilityModelSuffix;
    assert fileLabel[..|fileLabel| - |CapabilityModelSuffix|] == name;
  }

  const DefaultAppName := "iot_application"

  /** The first `n` project-name candidates, as a set. */
  function CandidateSet(n: nat): set<string>
  {
    if n == 0 then {} else CandidateSet(n - 1) + {Numbered(DefaultAppName, n - 1)}
  }

  /** The first `n` candidates are `n` different names, all taken if each one is. */
  lemma {:induction false} CandidateSetSize(n: nat, existing: set<string>)
    requires forall k :: 0 <= k < n ==> Numbered(DefaultAppName, k) in existing
    ensures |CandidateSet(n)| == n && CandidateSet(n) <= existing
    ensures forall x :: x in CandidateSet(n) ==> exists k :: 0 <= k < n && x == Numbered(DefaultAppName, k)
  {
    if n > 0 {
      CandidateSetSize(n - 1, existing);
      var c := Numbered(DefaultAppName, n - 1);
      if c in CandidateSet(n - 1) {
        var k :| 0 <= k < n - 1 && c == Numbered(DefaultAppName, k);
        NumberedInjective(DefaultAppName, k, n - 1);
      }
    }
  }

  lemma SubsetSize(a: set<string>, b: set<string>)
    requires a <= b
    ensures |a| <= |b|
  {
    var c := b - a;
    assert b == a + c;
  }

  /**
   * The candidate loop of `GetCodeGenProjectName`: iot_application,
   * iot_application_1, iot_application_2, ..., the first that is not an
   * existing folder under the root.
   */
  method ChooseProjectName(existingFolders: set<string>) returns (name: string)
    ensures name !in existingFolders
    ensures exists n: nat :: (name == Numbered(DefaultAppName, n) &&
      forall k :: 0 <= k < n ==> Numbered(DefaultAppName, k) in existingFolders)
  {
    var counter: nat := 0;
    var candidateName := DefaultAppName;
    while candidateName in existingFolders
      invariant candidateName == Numbered(DefaultAppName, counter)
      invariant forall k :: 0 <= k < counter ==> Numbered(DefaultAppName, k) in existingFolders
      invariant counter <= |existingFolders|
      decreases |existingFolders| - counter
    {
      CandidateSetSize(counter + 1, existingFolders);
      SubsetSize(CandidateSet(counter + 1), existingFolders);
      counter := counter + 1;
      candidateName := DefaultAppName + "_" + NatToString(counter);
    }
    name := candidateName;
  }

  /** One remembered code generation. */
  datatype CodeGenExecutionItem = CodeGenExecutionItem(
    capabilityModelPath: string, projectName: string, languageLabel: string,
    codeGenProjectType: string, deviceConnectionType: string)

  /** `filter(item => item.capabilityModelPath !== path)`. */
  function WithoutPath(items: seq<CodeGenExecutionItem>, path: string): (r: seq<CodeGenExecutionItem>)
    ensures |r| <= |items|
    ensures forall x :: x in r <==> x in items && x.capabilityModelPath != path
  {
    if |items| == 0 then []
    else
      var rest := WithoutPath(items[1..], path);
      if items[0].capabilityModelPath != path then [items[0]] + rest else rest
  }

  /**
   * The saved executions after a generation: without a saved file only
   * the new one; otherwise the earlier ones for other capability models,
   * in order, followed by the new one.
   */
  function SaveExecution(saved: Option<seq<CodeGenExecutionItem>>, info: CodeGenExecutionItem): (r: seq<CodeGenExecutionItem>)
    ensures |r| >= 1 && r[|r| - 1] == info
    ensures forall x :: x in r[..|r| - 1] <==> saved.Some? && x in saved.value && x.capabilityModelPath != info.capabilityModelPath
  {
    match saved
    case None => [info]
    case Some(items) =>
      var kept := WithoutPath(items, info.capabilityModelPath);
      assert (kept + [info])[..|kept|] == kept;
      kept + [info]
  }

  /** Filtering twice by the same path is filtering once. */
  lemma {:induction false} WithoutPathTwice(items: seq<CodeGenExecutionItem>, path: string)
    ensures WithoutPath(WithoutPath(items, path), path) == WithoutPath(items, path)
  {
    if |items| > 0 {
      WithoutPathTwice(items[1..], path);
    }
  }

  /** Filtering drops an appended item with that path. */
  lemma {:induction false} WithoutPathAppend(items: seq<CodeGenExecutionItem>, info: CodeGenExecutionItem)
    ensures WithoutPath(items + [info], info.capabilityModelPath) == WithoutPath(items, info.capabilityModelPath)
  {
    if |items| > 0 {
      assert (items + [info])[1..] == items[1..] + [info];
      WithoutPathAppend(items[1..], info);
    }
  }

  /** Saving the same generation again leaves the saved list as it was: one entry per capability model. */
  lemma SaveExecutionIdempotent(saved: Option<seq<CodeGenExecutionItem>>, info: CodeGenExecutionItem)
    ensures SaveExecution(Some(SaveExecution(saved, info)), info) == SaveExecution(saved, info)
  {
    match saved
    case None =>
    case Some(items) =>
      var kept := WithoutPath(items, info.capabilityModelPath);
      WithoutPathAppend(kept, info);
      WithoutPathTwice(items, info.capabilityModelPath);
  }
}
