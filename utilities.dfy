/**
 * Character predicates, quoting and escaping, and the combined length and
 * text of token lists (src/DigitalTwin/Utilities.ts).
 */
module Utilities {
  import opened Strings

  /** A JavaScript value that may be a string, `null` or `undefined`. */
  datatype JsString = Null | Undefined | Str(s: string)

  predicate IsWhitespaceCharacter(c: string)
  {
    c == " " || c == "\t" || c == "\n" || c == "\r"
  }

  predicate IsQuoteCharacter(c: string)
  {
    c == "'" || c == "\""
  }

  /**
   * `isDigit(character)`: a non-empty string between "0" and "9" in the
   * string order JavaScript's `<=` uses.
   */
  predicate IsDigit(character: string)
  {
    character != "" && LexLessEq("0", character) && LexLessEq(character, "9")
  }

  /** `isLetter(character)`: a non-empty string inside "A".."Z" or "a".."z". */
  predicate IsLetter(character: string)
  {
    character != "" &&
    ((LexLessEq("A", character) && LexLessEq(character, "Z")) ||
     (LexLessEq("a", character) && LexLessEq(character, "z")))
  }

  /** On one character the predicates are the ASCII range tests. */
  lemma CharacterClasses(c: char)
    ensures IsDigit([c]) <==> '0' <= c <= '9'
    ensures IsLetter([c]) <==> ('A' <= c <= 'Z' || 'a' <= c <= 'z')
  {
  }

  /**
   * On a string of any length the order tests look at the first character
   * only, except that a string longer than "9" (or "Z", "z") and starting
   * with it sorts after it: "5x" is a digit and "9x" is not, and the empty
   * string is neither.
   */
  lemma StringClasses(s: string)
    ensures IsDigit(s) <==> s != "" && ('0' <= s[0] <= '8' || s == "9")
    ensures IsLetter(s) <==> s != "" && ('A' <= s[0] < 'Z' || s == "Z" || 'a' <= s[0] < 'z' || s == "z")
  {
    if s != "" {
      LowerBound(s, '0');
      LowerBound(s, 'A');
      LowerBound(s, 'a');
      UpperBound(s, '9');
      UpperBound(s, 'Z');
      UpperBound(s, 'z');
    }
  }

  /** A non-empty string sorts at or after a one-character string exactly when its first character does. */
  lemma LowerBound(s: string, c: char)
    requires s != ""
    ensures LexLessEq([c], s) <==> c <= s[0]
  {
    if s[0] == c && s != [c] {
      assert LexLess([c][1..], s[1..]);
    }
  }

  /** A non-empty string sorts at or before a one-character string exactly when it starts below it or is it. */
  lemma UpperBound(s: string, c: char)
    requires s != ""
    ensures LexLessEq(s, [c]) <==> s[0] < c || s == [c]
  {
    if s[0] == c && s != [c] {
      assert |s| > 1;
      assert !LexLess(s[1..], [c][1..]);
    }
  }

  /**
   * `unquote(value)`: one leading quote character is dropped, then one
   * trailing quote character if anything is left.
   */
  function Unquote(value: string): (r: string)
    ensures |value| > 0 && IsQuoteCharacter([value[0]]) ==>
      r == (var t := value[1..]; if |t| > 0 && IsQuoteCharacter([t[|t| - 1]]) then t[..|t| - 1] else t)
    ensures !(|value| > 0 && IsQuoteCharacter([value[0]])) ==>
      r == (if |value| > 0 && IsQuoteCharacter([value[|value| - 1]]) then value[..|value| - 1] else value)
  {
    var t := if |value| > 0 && IsQuoteCharacter([value[0]]) then value[1..] else value;
    if |t| > 0 && IsQuoteCharacter([t[|t| - 1]]) then t[..|t| - 1] else t
  }

  /** Unquote removes at most one character from each end and keeps the middle. */
  lemma UnquoteKeepsMiddle(value: string)
    ensures |value| - 2 <= |Unquote(value)| <= |value|
    ensures OccursAt(value, Unquote(value), 0) || OccursAt(value, Unquote(value), 1)
  {
    var r := Unquote(value);
    if |value| > 0 && IsQuoteCharacter([value[0]]) {
      assert value[1..1 + |r|] == r;
    } else {
      assert value[0..|r|] == r;
    }
  }

  /** Quoting a string and unquoting it gives the string back. */
  lemma UnquoteQuote(s: string)
    ensures Quote(Str(s)) == "\"" + s + "\""
    ensures Unquote(Quote(Str(s))) == s
  {
    var q := Quote(Str(s));
    assert q[1..] == s + "\"";
    assert (s + "\"")[..|s|] == s;
  }

  /** `quote(value)`: "null", "undefined", or the string between double quotes. */
  function Quote(value: JsString): (r: string)
    ensures value.Str? ==> |r| == |value.s| + 2 && r[0] == '"' && r[|r| - 1] == '"' && r[1..|r| - 1] == value.s
    ensures value.Null? ==> r == "null"
    ensures value.Undefined? ==> r == "undefined"
  {
    match value
    case Null => "null"
    case Undefined => "undefined"
    case Str(s) => "\"" + s + "\""
  }

  /** The two-character escape for \b \f \n \r \t \v; any other character stands for itself. */
  function EscapeChar(c: char): (r: string)
  {
    if c == '\U{0008}' then "\\b"
    else if c == '\U{000C}' then "\\f"
    else if c == '\n' then "\\n"
    else if c == '\r' then "\\r"
    else if c == '\t' then "\\t"
    else if c == '\U{000B}' then "\\v"
    else [c]
  }

  predicate IsEscaped(c: char)
  {
    c == '\U{0008}' || c == '\U{000C}' || c == '\n' || c == '\r' || c == '\t' || c == '\U{000B}'
  }

  /** The escaped form of a whole string, character by character. */
  function EscapeText(s: string): string
  {
    if |s| == 0 then "" else EscapeText(s[..|s| - 1]) + EscapeChar(s[|s| - 1])
  }

  /** Escaped text holds none of the six control characters. */
  lemma {:induction false} EscapeTextHasNoControls(s: string)
    ensures forall i :: 0 <= i < |EscapeText(s)| ==> !IsEscaped(EscapeText(s)[i])
  {
    if |s| > 0 {
      EscapeTextHasNoControls(s[..|s| - 1]);
    }
  }

  /** Each of the six control characters adds one character to the length. */
  lemma {:induction false} EscapeTextLength(s: string)
    ensures |EscapeText(s)| == |s| + |CountEscaped(s)|
  {
    if |s| > 0 {
      EscapeTextLength(s[..|s| - 1]);
    }
  }

  /** The positions of the escaped characters of `s`, as a sequence of markers. */
  function CountEscaped(s: string): seq<char>
  {
    if |s| == 0 then [] else CountEscaped(s[..|s| - 1]) + (if IsEscaped(s[|s| - 1]) then [s[|s| - 1]] else [])
  }

  /** Text without control characters is its own escape. */
  lemma {:induction false} EscapeTextIdentity(s: string)
    requires forall i :: 0 <= i < |s| ==> !IsEscaped(s[i])
    ensures EscapeText(s) == s
  {
    if |s| > 0 {
      EscapeTextIdentity(s[..|s| - 1]);
      assert s == s[..|s| - 1] + [s[|s| - 1]];
    }
  }

  /**
   * The escape is not reversible: a backslash is not itself escaped, so a
   * newline and the two characters backslash, 'n' escape to the same text.
   */
  lemma EscapeNotInjective()
    ensures EscapeText("\n") == EscapeText("\\n")
  {
    assert EscapeText("\\n") == EscapeText("\\") + EscapeChar('n');
  }

  /**
   * `escape(value)`: the loop appends each character's escape; a falsy value
   * (null, undefined or "") is returned unchanged.
   */
  method Escape(value: JsString) returns (r: JsString)
    ensures value.Str? ==> r == Str(EscapeText(value.s))
    ensures !value.Str? ==> r == value
  {
    if value.Str? && value.s != "" {
      var result := "";
      var i := 0;
      while i < |value.s|
        invariant 0 <= i <= |value.s|
        invariant result == EscapeText(value.s[..i])
      {
        assert value.s[..i + 1][..i] == value.s[..i];
        result := result + EscapeChar(value.s[i]);
        i := i + 1;
      }
      assert value.s[..|value.s|] == value.s;
      r := Str(result);
    } else {
      r := value;
    }
  }

  /** `escapeAndQuote(value)`. */
  method EscapeAndQuote(value: JsString) returns (r: string)
    ensures value.Str? ==> r == "\"" + EscapeText(value.s) + "\""
    ensures value.Null? ==> r == "null"
    ensures value.Undefined? ==> r == "undefined"
  {
    var escaped := Escape(value);
    r := Quote(escaped);
  }

  function Sum(lengths: seq<int>): int
  {
    if |lengths| == 0 then 0 else Sum(lengths[..|lengths| - 1]) + lengths[|lengths| - 1]
  }

  function Concat(texts: seq<string>): string
  {
    if |texts| == 0 then "" else Concat(texts[..|texts| - 1]) + texts[|texts| - 1]
  }

  function Lengths(texts: seq<string>): (r: seq<int>)
    ensures |r| == |texts| && forall i :: 0 <= i < |texts| ==> r[i] == |texts[i]|
  {
    if |texts| == 0 then [] else Lengths(texts[..|texts| - 1]) + [|texts[|texts| - 1]|]
  }

  /** `getCombinedLength(values)`: the loop adds up the lengths. */
  method GetCombinedLength(lengths: seq<int>) returns (r: int)
    ensures r == Sum(lengths)
    ensures (forall i :: 0 <= i < |lengths| ==> lengths[i] >= 0) ==> r >= 0
  {
    r := 0;
    var i := 0;
    while i < |lengths|
      invariant 0 <= i <= |lengths|
      invariant r == Sum(lengths[..i])
      invariant (forall j :: 0 <= j < |lengths| ==> lengths[j] >= 0) ==> r >= 0
    {
      assert lengths[..i + 1][..i] == lengths[..i];
      r := r + lengths[i];
      i := i + 1;
    }
    assert lengths[..i] == lengths;
  }

  /** `getCombinedText(values)`: the loop concatenates the texts. */
  method GetCombinedText(texts: seq<string>) returns (r: string)
    ensures r == Concat(texts)
  {
    r := "";
    var i := 0;
    while i < |texts|
      invariant 0 <= i <= |texts|
      invariant r == Concat(texts[..i])
    {
      assert texts[..i + 1][..i] == texts[..i];
      r := r + texts[i];
      i := i + 1;
    }
    assert texts[..i] == texts;
  }

  /** The combined text is as long as the combined length of its parts. */
  lemma {:induction false} CombinedTextLength(texts: seq<string>)
    ensures |Concat(texts)| == Sum(Lengths(texts))
  {
    if |texts| > 0 {
      CombinedTextLength(texts[..|texts| - 1]);
    }
  }

  /** `GenerateDigitalTwinIdentifier(name)`: the name between a fixed prefix and suffix. */
  function GenerateDigitalTwinIdentifier(name: string): (r: string)
    ensures StartsWith(r, "urn:{your name}:") && EndsWith(r, ":1")
    ensures |r| == |name| + 18 && r[16..|r| - 2] == name
  {
    "urn:{your name}:" + name + ":1"
  }
}
