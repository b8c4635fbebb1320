/**
 * `PnPUri.Parse` of src/pnp/pnp-api/Validator/PnPUri.ts: a meta-model id
 * such as "urn:contoso:TemperatureSensor:1.0.0" written with '/' is split
 * into its namespace, name and version.
 */
module PnPUri {
  import opened Wrappers
  import opened Strings

  /** A parsed meta-model id and its three parts. */
  datatype PnPUri = PnPUri(id: string, namespace: string, name: string, version: string)

  const IdDelimiter := '/'

  predicate IsAsciiLetter(c: char)
  {
    'A' <= c <= 'Z' || 'a' <= c <= 'z'
  }

  predicate IsAsciiDigit(c: char)
  {
    '0' <= c <= '9'
  }

  /** `[A-Za-z0-9\-._:/]`. */
  predicate IsIdChar(c: char)
  {
    IsAsciiLetter(c) || IsAsciiDigit(c) || c == '-' || c == '.' || c == '_' || c == ':' || c == '/'
  }

  /** `[A-Za-z0-9_]`. */
  predicate IsWordChar(c: char)
  {
    IsAsciiLetter(c) || IsAsciiDigit(c) || c == '_'
  }

  /** The id pattern `^[A-Za-z0-9\-._:/]{1,64}$`. */
  predicate IsId(s: string)
  {
    1 <= |s| <= 64 && forall i :: 0 <= i < |s| ==> IsIdChar(s[i])
  }

  /**
   * The name pattern `^[A-Za-z_][A-Za-z0-9_]{1,64}$`: a letter or '_'
   * followed by one to 64 word characters, so two to 65 characters.
   */
  predicate IsName(s: string)
  {
    2 <= |s| <= 65 && (IsAsciiLetter(s[0]) || s[0] == '_') &&
    forall i :: 1 <= i < |s| ==> IsWordChar(s[i])
  }

  /** Every character from `k` to the end is a digit, and there is at least one. */
  predicate DigitsFrom(s: string, k: nat)
  {
    k < |s| && forall j :: k <= j < |s| ==> IsAsciiDigit(s[j])
  }

  /** Where the run of digits starting at `k` ends. */
  function DigitEnd(s: string, k: nat): (e: nat)
    requires k <= |s|
    ensures k <= e <= |s|
    ensures forall j :: k <= j < e ==> IsAsciiDigit(s[j])
    ensures e < |s| ==> !IsAsciiDigit(s[e])
    decreases |s| - k
  {
    if k == |s| || !IsAsciiDigit(s[k]) then k else DigitEnd(s, k + 1)
  }

  /**
   * The version pattern `^\d+\.\d+\.\d+$`: a digit run and a dot, a digit
   * run and a dot, and digits to the end.
   */
  predicate IsVersion(s: string)
  {
    var a := DigitEnd(s, 0);
    0 < a < |s| && s[a] == '.' &&
    var b := DigitEnd(s, a + 1);
    a + 1 < b < |s| && s[b] == '.' && DigitsFrom(s, b + 1)
  }

  /** The characters that end a URI scheme: ':', '/', '?' and '#'. */
  predicate IsDelimiter(c: char)
  {
    c == ':' || c == '/' || c == '?' || c == '#'
  }

  /** Where the first of ':', '/', '?' and '#' at or after `k` is, or the end. */
  function DelimiterFrom(s: string, k: nat): (e: nat)
    requires k <= |s|
    ensures k <= e <= |s|
    ensures e < |s| ==> IsDelimiter(s[e])
    decreases |s| - k
  {
    if k == |s| || IsDelimiter(s[k]) then k else DelimiterFrom(s, k + 1)
  }

  /**
   * The length of the scheme `vscode.Uri.parse` reads: the text before the
   * first ':' when it is not empty and no '/', '?' or '#' comes before it;
   * 0 when there is no scheme.
   */
  function SchemeLength(s: string): (n: nat)
    ensures n < |s| || n == 0
    ensures 0 < n ==> s[n] == ':'
  {
    var e := DelimiterFrom(s, 0);
    if 0 < e < |s| && s[e] == ':' then e else 0
  }

  /** What follows the scheme and its ':', or the whole text when there is no scheme. */
  function UriRest(s: string): (rest: string)
    ensures SchemeLength(s) == 0 ==> rest == s
    ensures SchemeLength(s) > 0 ==> s == s[..SchemeLength(s)] + ":" + rest
  {
    var n := SchemeLength(s);
    if n == 0 then s else s[n + 1..]
  }

  /** `[\w\d+.-]`. */
  predicate IsSchemeChar(c: char)
  {
    IsWordChar(c) || c == '+' || c == '.' || c == '-'
  }

  /** The scheme pattern `^\w[\w\d+.-]*$` of `vscode.Uri`. */
  predicate IsScheme(s: string)
  {
    1 <= |s| && IsWordChar(s[0]) && forall i :: 1 <= i < |s| ==> IsSchemeChar(s[i])
  }

  /**
   * `vscode.Uri.parse` accepts the text: a scheme, when there is one, fits
   * the scheme pattern, and a path does not begin with "//" when the
   * authority is empty. After "//" the authority runs to the next '/', so
   * an empty authority followed by "//" is a rest that begins with "////".
   * A path after a non-empty authority always begins with '/', so the third
   * check of `vscode.Uri` never fails here.
   */
  predicate UriParses(s: string)
  {
    var n := SchemeLength(s);
    (n == 0 || IsScheme(s[..n])) && !FourSlashes(UriRest(s))
  }

  /** The text begins with "////". */
  predicate FourSlashes(s: string)
  {
    |s| >= 4 && s[0] == '/' && s[1] == '/' && s[2] == '/' && s[3] == '/'
  }

  const SchemeError := "[UriError]: Scheme contains illegal characters."
  const PathError := "[UriError]: If a URI does not contain an authority component, then the path cannot begin with two slash characters (\"//\")"

  /** The error `vscode.Uri.parse` throws on a text it refuses. */
  function UriError(s: string): (msg: string)
    requires !UriParses(s)
    ensures msg == SchemeError || msg == PathError
  {
    var n := SchemeLength(s);
    if n != 0 && !IsScheme(s[..n]) then SchemeError else PathError
  }

  /**
   * What the checks of `Parse` accept: a text `vscode.Uri.parse` accepts
   * that also fits the patterns.
   */
  predicate Acceptable(id: string)
  {
    UriParses(id) && FitsPatterns(id)
  }

  /**
   * The pattern checks: the id pattern, three or more '/'-parts, a valid
   * version last and a valid name before it.
   */
  predicate FitsPatterns(id: string)
  {
    IsId(id) &&
    var parts := Split(id, IdDelimiter);
    |parts| >= 3 && IsVersion(parts[|parts| - 1]) && IsName(parts[|parts| - 2])
  }

  /** A valid name and version that, after the namespace, spell the id. */
  predicate Reassembles(u: PnPUri)
  {
    IsName(u.name) && IsVersion(u.version) && u.namespace + "/" + u.name + "/" + u.version == u.id
  }

  /**
   * `Parse`: the checks in the source's order, each with its own message;
   * `vscode.Uri.parse` comes right after the empty check.
   */
  function Parse(metamodelUriId: string): (r: Result<PnPUri>)
    ensures r.Ok? <==> Acceptable(metamodelUriId)
    ensures r.Ok? ==> r.value.id == metamodelUriId && Reassembles(r.value)
  {
    if metamodelUriId == "" then Err("The input meta model Uri could not be empty")
    else if !UriParses(metamodelUriId) then Err(UriError(metamodelUriId))
    else CheckPatterns(metamodelUriId)
  }

  /**
   * The pattern checks of `Parse` after the URI is read, each with its own
   * message; the namespace is what is left of the id before "/name/version".
   */
  function CheckPatterns(metamodelUriId: string): (r: Result<PnPUri>)
    ensures r.Ok? <==> FitsPatterns(metamodelUriId)
    ensures r.Ok? ==> r.value.id == metamodelUriId && Reassembles(r.value)
  {
    if !IsId(metamodelUriId) then Err("metamodelUriId is not valid")
    else
      var splitStrings := Split(metamodelUriId, IdDelimiter);
      if |splitStrings| < 3 then Err("metamodelUriId should contain minimum of 3 parts")
      else
        var versionString := splitStrings[|splitStrings| - 1];
        if !IsVersion(versionString) then Err("metamodelUriId version is not valid")
        else
          var name := splitStrings[|splitStrings| - 2];
          if !IsName(name) then Err("metamodelUriId name is not valid")
          else Ok(Assemble(metamodelUriId))
  }

  /**
   * The parts `Parse` returns for an id with three or more '/'-parts: the
   * last two, and the id cut before "/name/version" as the namespace.
   */
  function Assemble(id: string): (u: PnPUri)
    requires |Split(id, IdDelimiter)| >= 3
    ensures var parts := Split(id, IdDelimiter);
      u.id == id && u.name == parts[|parts| - 2] && u.version == parts[|parts| - 1] &&
      u.namespace + "/" + u.name + "/" + u.version == id
  {
    var parts := Split(id, IdDelimiter);
    var version, name := parts[|parts| - 1], parts[|parts| - 2];
    var cut := |id| - (|version| + 1 + |name| + 1);
    NamespaceRoundTrip(id);
    PnPUri(id, id[..cut], name, version)
  }

  /**
   * A text with at least three '/'-parts ends with "/name/version" for its
   * last two parts, and the rest in front is the join of the other parts.
   */
  lemma NamespaceRoundTrip(id: string)
    requires |Split(id, IdDelimiter)| >= 3
    ensures var parts := Split(id, IdDelimiter);
      var n := |parts|;
      var cut := |id| - (|parts[n - 1]| + 1 + |parts[n - 2]| + 1);
      cut == |Join(parts[..n - 2], [IdDelimiter])| &&
      id[..cut] == Join(parts[..n - 2], [IdDelimiter]) &&
      id[..cut] + "/" + parts[n - 2] + "/" + parts[n - 1] == id
  {
    var parts := Split(id, IdDelimiter);
    var n := |parts|;
    JoinLastTwo(parts, [IdDelimiter]);
    JoinSplit(id, IdDelimiter);
    CutFront(Join(parts[..n - 2], [IdDelimiter]), [IdDelimiter], parts[n - 2], parts[n - 1], id);
  }

  /** The front of a text made of five pieces, two of them one-character separators. */
  lemma CutFront(front: string, sep: string, a: string, b: string, id: string)
    requires |sep| == 1 && id == front + sep + a + sep + b
    ensures |id| - (|b| + 1 + |a| + 1) == |front| && id[..|front|] == front
  {
    assert id[..|front|] == front;
  }

  /** A join of three or more parts ends with the last two, each after a separator. */
  lemma JoinLastTwo(parts: seq<string>, sep: string)
    requires |parts| >= 3
    ensures var n := |parts|;
      Join(parts, sep) == Join(parts[..n - 2], sep) + sep + parts[n - 2] + sep + parts[n - 1]
  {
    var n := |parts|;
    var front, mid := parts[..n - 2], parts[..n - 1];
    TakeOneMore(parts, n - 2);
    TakeOneMore(parts, n - 1);
    JoinAppend(front, parts[n - 2], sep);
    JoinAppend(mid, parts[n - 1], sep);
  }

  /** A prefix one longer is the prefix with the next element appended. */
  lemma TakeOneMore(parts: seq<string>, k: nat)
    requires k < |parts|
    ensures parts[..k + 1] == parts[..k] + [parts[k]]
    ensures k + 1 == |parts| ==> parts[..k + 1] == parts
  {
  }

  /**
   * The inverse direction: joining a namespace of id characters, a valid
   * name and a valid version parses back into exactly those three parts,
   * as long as the whole id stays within 64 characters and the namespace
   * with its '/' is a text `vscode.Uri.parse` accepts.
   */
  lemma ParseFormat(namespace: string, name: string, version: string)
    requires forall i :: 0 <= i < |namespace| ==> IsIdChar(namespace[i])
    requires UriParses(namespace + "/")
    requires IsName(name) && IsVersion(version)
    requires |namespace| + |name| + |version| + 2 <= 64
    ensures var id := namespace + "/" + name + "/" + version;
      Parse(id) == Ok(PnPUri(id, namespace, name, version))
  {
    var id := namespace + "/" + name + "/" + version;
    FormatIsId(namespace, name, version);
    FormatUriParses(namespace, name, version);
    FormatSplit(namespace, name, version);
    LastTwo(Split(namespace, IdDelimiter), name, version);
    FormatAssembles(namespace, name, version);
    ParseAccepted(id);
  }

  /** An id the checks accept parses into its assembled parts. */
  lemma ParseAccepted(id: string)
    requires Acceptable(id)
    ensures Parse(id) == Ok(Assemble(id))
  {
  }

  /** The last two of a list with two parts appended are those two. */
  lemma LastTwo(front: seq<string>, a: string, b: string)
    requires |front| >= 1
    ensures var parts := front + [a, b];
      |parts| >= 3 && parts[|parts| - 2] == a && parts[|parts| - 1] == b
  {
  }

  /** The namespace `Parse` cuts from a joined id is the namespace joined in. */
  lemma FormatAssembles(namespace: string, name: string, version: string)
    requires IsName(name) && IsVersion(version)
    ensures var id := namespace + "/" + name + "/" + version;
      |Split(id, IdDelimiter)| >= 3 && Assemble(id) == PnPUri(id, namespace, name, version)
  {
    var id := namespace + "/" + name + "/" + version;
    FormatSplit(namespace, name, version);
    LastTwo(Split(namespace, IdDelimiter), name, version);
    var u := Assemble(id);
    var t := "/" + name + "/" + version;
    Regroup(u.namespace, "/", name, version);
    Regroup(namespace, "/", name, version);
    SameFront(u.namespace, namespace, t);
  }

  lemma Regroup(x: string, sep: string, a: string, b: string)
    ensures x + sep + a + sep + b == x + (sep + a + sep + b)
  {
  }

  /** Two texts with the same ending are equal when what precedes it is. */
  lemma SameFront(x: string, y: string, t: string)
    requires x + t == y + t
    ensures x == y
  {
    assert x == (x + t)[..|x|];
    assert y == (y + t)[..|y|];
  }

  /** The joined id is accepted by `vscode.Uri.parse` when the namespace with its '/' is. */
  lemma FormatUriParses(namespace: string, name: string, version: string)
    requires UriParses(namespace + "/") && IsName(name)
    ensures UriParses(namespace + "/" + name + "/" + version)
  {
    assert namespace + "/" + name + "/" + version == (namespace + "/") + (name + "/" + version);
    UriParsesExtended(namespace + "/", name + "/" + version);
  }

  /** The scan for a delimiter stops at the same place when text is added after it. */
  lemma {:induction false} DelimiterExtended(p: string, t: string, k: nat)
    requires k <= |p| && DelimiterFrom(p, k) < |p|
    ensures DelimiterFrom(p + t, k) == DelimiterFrom(p, k)
    decreases |p| - k
  {
    assert (p + t)[k] == p[k];
    if !IsDelimiter(p[k]) {
      DelimiterExtended(p, t, k + 1);
    }
  }

  /**
   * Text added after a '/' that does not itself begin with '/' changes
   * nothing `vscode.Uri.parse` checks: the scheme ends before that '/', and
   * a rest of fewer than four characters cannot grow into "////".
   */
  lemma UriParsesExtended(p: string, t: string)
    requires |p| >= 1 && p[|p| - 1] == '/'
    requires |t| >= 1 ==> t[0] != '/'
    ensures UriParses(p + t) == UriParses(p)
  {
    var n := SchemeExtended(p, t);
    RestExtended(p, t, n);
    FourSlashesExtended(UriRest(p), t);
  }

  /** The scan stops at the latest at a delimiter that ends the text. */
  lemma {:induction false} DelimiterBeforeEnd(p: string, k: nat)
    requires k < |p| && IsDelimiter(p[|p| - 1])
    ensures DelimiterFrom(p, k) < |p|
    decreases |p| - k
  {
    if !IsDelimiter(p[k]) {
      DelimiterBeforeEnd(p, k + 1);
    }
  }

  /** The scheme of a text that has a '/' is found before it, whatever follows. */
  lemma SchemeExtended(p: string, t: string) returns (n: nat)
    requires |p| >= 1 && p[|p| - 1] == '/'
    ensures n == SchemeLength(p) == SchemeLength(p + t)
    ensures n == 0 || n < |p| - 1
    ensures (p + t)[..n] == p[..n]
  {
    DelimiterBeforeEnd(p, 0);
    DelimiterExtended(p, t, 0);
    n := SchemeLength(p);
  }

  /** What follows the scheme grows by the added text. */
  lemma RestExtended(p: string, t: string, n: nat)
    requires n == SchemeLength(p) == SchemeLength(p + t)
    requires n == 0 || n < |p| - 1
    ensures UriRest(p + t) == UriRest(p) + t
  {
    if n > 0 {
      assert (p + t)[n + 1..] == p[n + 1..] + t;
    }
  }

  /** A rest ending in '/' does not grow into "////" by text that does not begin with '/'. */
  lemma FourSlashesExtended(rest: string, t: string)
    requires |rest| >= 1 && rest[|rest| - 1] == '/'
    requires |t| >= 1 ==> t[0] != '/'
    ensures FourSlashes(rest + t) == FourSlashes(rest)
  {
    if |rest| < 4 && |t| >= 1 {
      assert (rest + t)[|rest|] == t[0];
    }
  }

  /**
   * An id that fits every pattern can still be refused by
   * `vscode.Uri.parse`: after "x:" the empty authority leaves the path
   * "//Name/1.0.0".
   */
  lemma EmptyAuthorityRefused()
    ensures Parse("x:////Name/1.0.0") == Err(PathError)
  {
    var s := "x:////Name/1.0.0";
    assert DelimiterFrom(s, 1) == 1;
    assert SchemeLength(s) == 1;
    assert FourSlashes(UriRest(s));
  }

  /** A scheme that begins with '-' is refused before the id pattern is checked. */
  lemma DashSchemeRefused()
    ensures Parse("-x:/a/Name/1.0.0") == Err(SchemeError)
  {
    var s := "-x:/a/Name/1.0.0";
    assert DelimiterFrom(s, 2) == 2;
    assert DelimiterFrom(s, 0) == 2;
    assert SchemeLength(s) == 2;
    assert !IsScheme(s[..2]);
  }

  /** The empty id is refused before any other check. */
  lemma ParseEmpty()
    ensures Parse("") == Err("The input meta model Uri could not be empty")
  {
  }

  /** The joined id consists of id characters only. */
  lemma FormatIsId(namespace: string, name: string, version: string)
    requires forall i :: 0 <= i < |namespace| ==> IsIdChar(namespace[i])
    requires IsName(name) && IsVersion(version)
    requires |namespace| + |name| + |version| + 2 <= 64
    ensures IsId(namespace + "/" + name + "/" + version)
  {
    var id := namespace + "/" + name + "/" + version;
    VersionChars(version);
    forall i | 0 <= i < |id| ensures IsIdChar(id[i]) {
      if i < |namespace| {
        assert id[i] == namespace[i];
      } else if i == |namespace| || i == |namespace| + 1 + |name| {
      } else if i < |namespace| + 1 + |name| {
        assert id[i] == name[i - |namespace| - 1];
      } else {
        assert id[i] == version[i - |namespace| - |name| - 2];
      }
    }
  }

  /** Neither the name nor the version holds a '/', so they come back as the last two parts. */
  lemma FormatSplit(namespace: string, name: string, version: string)
    requires IsName(name) && IsVersion(version)
    ensures Split(namespace + "/" + name + "/" + version, IdDelimiter) == Split(namespace, IdDelimiter) + [name, version]
  {
    VersionChars(version);
    assert IdDelimiter !in name by {
      assert !IsWordChar(IdDelimiter) && !IsAsciiLetter(IdDelimiter);
    }
    assert IdDelimiter !in version;
    assert namespace + "/" + name + "/" + version == namespace + [IdDelimiter] + (name + [IdDelimiter] + version);
    SplitSeparated(namespace, name + [IdDelimiter] + version, IdDelimiter);
    SplitSeparated(name, version, IdDelimiter);
  }

  /** A version holds only digits and dots. */
  lemma VersionChars(version: string)
    requires IsVersion(version)
    ensures forall k :: 0 <= k < |version| ==> IsAsciiDigit(version[k]) || version[k] == '.'
  {
    var a := DigitEnd(version, 0);
    var b := DigitEnd(version, a + 1);
    assert DigitsFrom(version, b + 1);
  }
}
