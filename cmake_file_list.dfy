/**
 * `getIncludedFileListString` of
 * src/DigitalTwin/DigitalTwinCodeGen/AnsiCCodeGeneratorImplCMake.ts: the
 * generated source files listed in the CMake project, one per line.
 */
module CMakeFileList {
  import opened Strings

  /** The path conventions of the platform the generator runs on. */
  datatype PathStyle = PathStyle(sep: char)

  /** The part of a path after its last separator. */
  function BaseName(style: PathStyle, file: string): (r: string)
    ensures style.sep !in r
    ensures EndsWith(file, r)
    decreases |file|
  {
    if |file| == 0 then ""
    else if file[|file| - 1] == style.sep then ""
    else
      var front := BaseName(style, file[..|file| - 1]);
      assert EndsWith(file[..|file| - 1], front);
      assert file[|file| - |front| - 1..] == file[..|file| - 1][|file| - 1 - |front|..] + [file[|file| - 1]];
      front + [file[|file| - 1]]
  }

  /** The position of the last `c` in `s`, or -1. */
  function LastIndexOf(s: string, c: char): (r: int)
    ensures -1 <= r < |s|
    ensures r >= 0 ==> s[r] == c
    ensures forall k :: r < k < |s| ==> s[k] != c
  {
    if |s| == 0 then -1
    else if s[|s| - 1] == c then |s| - 1
    else LastIndexOf(s[..|s| - 1], c)
  }

  /**
   * `path.extname`: from the last '.' of the base name to its end, or ""
   * when the base name has no '.' after its first character.
   */
  function ExtName(style: PathStyle, file: string): (r: string)
    ensures r == "" || (r[0] == '.' && '.' !in r[1..] && EndsWith(file, r))
  {
    var base := BaseName(style, file);
    var dot := LastIndexOf(base, '.');
    if dot <= 0 then ""
    else
      assert base[dot..] == base[|base| - (|base| - dot)..];
      base[dot..]
  }

  /** The filter of the chain: the wanted extension, and not a main.c. */
  predicate Included(style: PathStyle, file: string, fileExtension: string)
  {
    ExtName(style, file) == fileExtension && !EndsWith(file, "main.c")
  }

  /** The kept files, in their original order. */
  function IncludedFiles(style: PathStyle, files: seq<string>, fileExtension: string): (r: seq<string>)
    ensures |r| <= |files|
    ensures forall f :: f in r <==> f in files && Included(style, f, fileExtension)
  {
    if |files| == 0 then []
    else
      var front := IncludedFiles(style, files[..|files| - 1], fileExtension);
      var f := files[|files| - 1];
      assert files == files[..|files| - 1] + [f];
      if Included(style, f, fileExtension) then front + [f] else front
  }

  /**
   * `path.relative(rootDir, file)` for a file below `rootDir`: the rest of
   * the path after the root and its separator.
   */
  function Relative(style: PathStyle, rootDir: string, file: string): (r: string)
    ensures StartsWith(file, rootDir + [style.sep]) ==> rootDir + [style.sep] + r == file
  {
    var prefix := rootDir + [style.sep];
    if StartsWith(file, prefix) then
      assert file == file[..|prefix|] + file[|prefix|..];
      file[|prefix|..]
    else file
  }

  /** `s.replace(c, d)` with a string pattern: only the first `c` is replaced. */
  function ReplaceFirst(s: string, c: char, d: char): (r: string)
    ensures |r| == |s|
    ensures c !in s ==> r == s
    ensures c in s ==> (r[IndexOf(s, c)] == d &&
      forall k :: 0 <= k < |s| && k != IndexOf(s, c) ==> r[k] == s[k])
  {
    var i := IndexOf(s, c);
    if i < 0 then s else s[i := d]
  }

  /** One line of the list: "./" and the path relative to the root, its first separator made '/'. */
  function Entry(style: PathStyle, rootDir: string, file: string): (r: string)
    ensures StartsWith(r, "./")
    ensures |r| == 2 + |Relative(style, rootDir, file)|
  {
    "./" + ReplaceFirst(Relative(style, rootDir, file), style.sep, '/')
  }

  function Entries(style: PathStyle, rootDir: string, files: seq<string>): (r: seq<string>)
    ensures |r| == |files|
    ensures forall i :: 0 <= i < |files| ==> r[i] == Entry(style, rootDir, files[i])
  {
    if |files| == 0 then [] else [Entry(style, rootDir, files[0])] + Entries(style, rootDir, files[1..])
  }

  /**
   * `getIncludedFileListString`: the entries of the kept files joined by a
   * line break and four spaces; "" when nothing was generated.
   * `newLine` is the `NewLine` constant of the (not modelled) tokenizer module.
   */
  function IncludedFileListString(style: PathStyle, generatedFiles: seq<string>, rootDir: string, fileExtension: string, newLine: string): (r: string)
    ensures |generatedFiles| == 0 ==> r == ""
  {
    if |generatedFiles| == 0 then ""
    else Join(Entries(style, rootDir, IncludedFiles(style, generatedFiles, fileExtension)), newLine + "    ")
  }

  /**
   * The list has exactly one line per kept file: splitting it at the
   * separator gives back the entries, as long as no entry contains the
   * (one-character) separator.
   */
  lemma IncludedFileListLines(style: PathStyle, generatedFiles: seq<string>, rootDir: string, fileExtension: string, newLine: char)
    requires newLine !in rootDir && newLine !in "./ " && forall f <- generatedFiles :: newLine !in f
    requires |IncludedFiles(style, generatedFiles, fileExtension)| >= 1
    ensures var entries := Entries(style, rootDir, IncludedFiles(style, generatedFiles, fileExtension));
      Split(IncludedFileListString(style, generatedFiles, rootDir, fileExtension, [newLine]), newLine) ==
      [entries[0]] + EntriesIndented(entries[1..])
  {
    var kept := IncludedFiles(style, generatedFiles, fileExtension);
    var entries := Entries(style, rootDir, kept);
    var indented := [entries[0]] + EntriesIndented(entries[1..]);
    forall i | 0 <= i < |indented| ensures newLine !in indented[i] {
      var f := kept[i];
      assert f in generatedFiles;
      EntryWithoutChar(style, rootDir, f, newLine);
      if i > 0 {
        assert indented[i] == "    " + entries[i];
      }
    }
    JoinIndented(entries, [newLine]);
    SplitJoin(indented, newLine);
  }

  /** Each entry after the first, with the four spaces that follow the line break. */
  function EntriesIndented(entries: seq<string>): (r: seq<string>)
    ensures |r| == |entries|
    ensures forall i :: 0 <= i < |entries| ==> r[i] == "    " + entries[i]
  {
    if |entries| == 0 then [] else ["    " + entries[0]] + EntriesIndented(entries[1..])
  }

  /** Joining with "line break + spaces" is joining the indented entries with the line break. */
  lemma {:induction false} JoinIndented(entries: seq<string>, newLine: string)
    requires |entries| >= 1
    ensures Join(entries, newLine + "    ") == Join([entries[0]] + EntriesIndented(entries[1..]), newLine)
    decreases |entries|
  {
    if |entries| > 1 {
      JoinIndented(entries[1..], newLine);
      var rest := entries[1..];
      assert ([entries[0]] + EntriesIndented(rest))[1..] == EntriesIndented(rest);
      assert EntriesIndented(rest) == ["    " + rest[0]] + EntriesIndented(rest[1..]);
      assert Join(EntriesIndented(rest), newLine) == "    " + Join([rest[0]] + EntriesIndented(rest[1..]), newLine) by {
        IndentFirst(rest, newLine);
      }
    }
  }

  lemma IndentFirst(rest: seq<string>, newLine: string)
    requires |rest| >= 1
    ensures Join(EntriesIndented(rest), newLine) == "    " + Join([rest[0]] + EntriesIndented(rest[1..]), newLine)
  {
    var ind := EntriesIndented(rest);
    assert ind == ["    " + rest[0]] + EntriesIndented(rest[1..]);
    assert ind[1..] == ([rest[0]] + EntriesIndented(rest[1..]))[1..];
  }

  /** An entry holds no character that neither the root nor the file holds. */
  lemma EntryWithoutChar(style: PathStyle, rootDir: string, file: string, c: char)
    requires c !in rootDir && c !in file && c !in "./"
    ensures c !in Entry(style, rootDir, file)
  {
    var rel := Relative(style, rootDir, file);
    assert forall k :: 0 <= k < |rel| ==> rel[k] in file;
  }
}
