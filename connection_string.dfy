/**
 * The connection-string grammar shared by the three parsers of the
 * extension (src/DigitalTwin/DigitalTwinApi/DigitalTwinConnectionStringBuilder.ts,
 * src/pnp/pnp-api/PnPConnectionStringBuilder.ts and
 * src/DigitalTwin/pnp/src/modelRepository/modelRepositoryConnection.ts):
 * ';'-separated "name=value" segments collected into a dictionary, and the
 * character patterns the property values are checked against.
 */
module ConnectionString {
  import opened Wrappers
  import opened Strings

  const ValuePairDelimiter := ';'
  const ValuePairSeparator := '='

  const HostNamePropertyName := "HostName"
  const RepositoryIdPropertyName := "RepositoryId"
  const SharedAccessKeyNamePropertyName := "SharedAccessKeyName"
  const SharedAccessKeyValuePropertyName := "SharedAccessKey"

  /**
   * One segment: the name before the first '=' and the value after it.
   * `None` when there is no '=', it comes first, or nothing follows it.
   */
  function SplitPair(segment: string): (r: Option<(string, string)>)
    ensures r.Some? <==> 0 < IndexOf(segment, ValuePairSeparator) < |segment| - 1
    ensures r.Some? ==>
      r.value.0 != "" && r.value.1 != "" && ValuePairSeparator !in r.value.0 &&
      r.value.0 + [ValuePairSeparator] + r.value.1 == segment
  {
    var index := IndexOf(segment, ValuePairSeparator);
    if index <= 0 then None
    else
      var propertyName := segment[..index];
      var propertyValue := segment[index + 1..];
      if propertyName == "" || propertyValue == "" then None
      else
        assert segment == propertyName + [ValuePairSeparator] + propertyValue;
        Some((propertyName, propertyValue))
  }

  /** Any non-empty name without '=' and any non-empty value come back from their segment. */
  lemma SplitPairFormat(name: string, value: string)
    requires name != "" && value != "" && ValuePairSeparator !in name
    ensures SplitPair(name + [ValuePairSeparator] + value) == Some((name, value))
  {
    var segment := name + [ValuePairSeparator] + value;
    assert segment[..|name|] == name;
    IndexOfFirst(segment, ValuePairSeparator, |name|);
    assert segment[|name| + 1..] == value;
  }

  /** Properties to write out: each name non-empty and without '=', each value non-empty. */
  predicate WellFormedPairs(pairs: seq<(string, string)>)
  {
    forall i :: 0 <= i < |pairs| ==> pairs[i].0 != "" && pairs[i].1 != "" && ValuePairSeparator !in pairs[i].0
  }

  /** The "name=value" segments of a list of properties. */
  function Segments(pairs: seq<(string, string)>): (r: seq<string>)
    ensures |r| == |pairs|
    ensures forall i :: 0 <= i < |pairs| ==> r[i] == pairs[i].0 + [ValuePairSeparator] + pairs[i].1
  {
    seq(|pairs|, i requires 0 <= i < |pairs| => pairs[i].0 + [ValuePairSeparator] + pairs[i].1)
  }

  /** `The format of the connection string is not valid: ${value}`. */
  function InvalidSegmentMessage(segment: string): string
  {
    "The format of the connection string is not valid: " + segment
  }

  /**
   * The value the dictionary holds for `name` after all segments: that of
   * the last segment with this name, if any.
   */
  function LastValue(segments: seq<string>, name: string): Option<string>
  {
    if |segments| == 0 then None
    else
      var pair := SplitPair(segments[|segments| - 1]);
      if pair.Some? && pair.value.0 == name then Some(pair.value.1)
      else LastValue(segments[..|segments| - 1], name)
  }

  /**
   * The dictionary the segments fill, a later duplicate overwriting an
   * earlier one; the first malformed segment is the error.
   */
  function Items(segments: seq<string>): (r: Result<map<string, string>>)
    ensures r.Ok? <==> forall i :: 0 <= i < |segments| ==> SplitPair(segments[i]).Some?
  {
    if |segments| == 0 then Ok(map[])
    else
      var front := segments[..|segments| - 1];
      var last := segments[|segments| - 1];
      assert forall j :: 0 <= j < |front| ==> front[j] == segments[j];
      match Items(front)
      case Err(e) => Err(e)
      case Ok(items) =>
        match SplitPair(last)
        case None => Err(InvalidSegmentMessage(last))
        case Some((propertyName, propertyValue)) => Ok(items[propertyName := propertyValue])
  }

  /**
   * The dictionary holds exactly the names of the segments, each with the
   * value of its last segment.
   */
  lemma {:induction false} ItemsLastValue(segments: seq<string>, name: string)
    requires Items(segments).Ok?
    ensures (name in Items(segments).value) == LastValue(segments, name).Some?
    ensures name in Items(segments).value ==> Items(segments).value[name] == LastValue(segments, name).value
    decreases |segments|
  {
    if |segments| > 0 {
      ItemsLastValue(segments[..|segments| - 1], name);
    }
  }

  /**
   * Written-out properties with distinct names read back into a dictionary
   * that maps each name to its value.
   */
  lemma {:induction false} SegmentsLastValue(pairs: seq<(string, string)>, j: nat)
    requires WellFormedPairs(pairs) && j < |pairs|
    requires forall i, k :: 0 <= i < k < |pairs| ==> pairs[i].0 != pairs[k].0
    ensures Items(Segments(pairs)).Ok?
    ensures LastValue(Segments(pairs), pairs[j].0) == Some(pairs[j].1)
    decreases |pairs|
  {
    var segments := Segments(pairs);
    forall i | 0 <= i < |pairs| ensures SplitPair(segments[i]).Some? {
      SplitPairFormat(pairs[i].0, pairs[i].1);
    }
    var n := |pairs| - 1;
    SplitPairFormat(pairs[n].0, pairs[n].1);
    if j < n {
      assert Segments(pairs)[..n] == Segments(pairs[..n]);
      SegmentsLastValue(pairs[..n], j);
    }
  }

  /** Once a prefix of the segments fails, the whole fails with the same error. */
  lemma {:induction false} ItemsErrorStays(segments: seq<string>, n: nat)
    requires n <= |segments| && Items(segments[..n]).Err?
    ensures Items(segments) == Items(segments[..n])
    decreases |segments|
  {
    if n < |segments| {
      var front := segments[..|segments| - 1];
      assert front[..n] == segments[..n];
      ItemsErrorStays(front, n);
    } else {
      assert segments[..n] == segments;
    }
  }

  /** A failure names the first malformed segment. */
  lemma {:induction false} ItemsFirstError(segments: seq<string>)
    requires Items(segments).Err?
    ensures exists i :: (0 <= i < |segments| && SplitPair(segments[i]).None? &&
      Items(segments).error == InvalidSegmentMessage(segments[i]) &&
      forall j :: 0 <= j < i ==> SplitPair(segments[j]).Some?)
    decreases |segments|
  {
    var front := segments[..|segments| - 1];
    assert forall j :: 0 <= j < |front| ==> front[j] == segments[j];
    if Items(front).Err? {
      ItemsFirstError(front);
    } else {
      var i := |segments| - 1;
      assert SplitPair(segments[i]).None?;
    }
  }

  /**
   * The loop that walks the segments in order, stopping at the first
   * malformed one, and stores each pair in the dictionary.
   */
  method CollectItems(segments: seq<string>) returns (r: Result<map<string, string>>)
    ensures r == Items(segments)
  {
    var items: map<string, string> := map[];
    for i := 0 to |segments|
      invariant Items(segments[..i]) == Ok(items)
    {
      assert segments[..i + 1][..i] == segments[..i];
      var pair := SplitPair(segments[i]);
      if pair.None? {
        ItemsErrorStays(segments, i + 1);
        return Err(InvalidSegmentMessage(segments[i]));
      }
      items := items[pair.value.0 := pair.value.1];
    }
    assert segments[..|segments|] == segments;
    r := Ok(items);
  }

  /** A character of `[a-zA-Z0-9_\-\.]`. */
  predicate IsHostChar(c: char)
  {
    'a' <= c <= 'z' || 'A' <= c <= 'Z' || '0' <= c <= '9' || c == '_' || c == '-' || c == '.'
  }

  /** A character of `[a-zA-Z0-9_\-@\.]`. */
  predicate IsKeyNameChar(c: char)
  {
    IsHostChar(c) || c == '@'
  }

  /** The characters JavaScript's `.` does not match. */
  predicate IsLineTerminator(c: char)
  {
    c == '\n' || c == '\r' || c == '\U{2028}' || c == '\U{2029}'
  }

  /**
   * The host-name pattern as written, `[a-zA-Z0-9_\-\.]+$` without a
   * leading `^`: some non-empty tail of the text is host characters.
   */
  predicate HostNameMatchesAsWritten(s: string)
  {
    exists i :: 0 <= i < |s| && HostCharsFrom(s, i)
  }

  /** From position `i` to the end, `s` holds host characters only. */
  predicate HostCharsFrom(s: string, i: nat)
  {
    forall k :: i <= k < |s| ==> IsHostChar(s[k])
  }

  /** The host-name pattern anchored at both ends: every character is a host character. */
  predicate IsHostName(s: string)
  {
    |s| >= 1 && forall k :: 0 <= k < |s| ==> IsHostChar(s[k])
  }

  /** `^[a-zA-Z0-9_\-@\.]+$`. */
  predicate IsKeyName(s: string)
  {
    |s| >= 1 && forall k :: 0 <= k < |s| ==> IsKeyNameChar(s[k])
  }

  /** `^.+$`: at least one character and no line terminator. */
  predicate IsKeyValue(s: string)
  {
    |s| >= 1 && forall k :: 0 <= k < |s| ==> !IsLineTerminator(s[k])
  }

  /** As written, the test only looks at the last character. */
  lemma HostNameAsWrittenLastChar(s: string)
    ensures HostNameMatchesAsWritten(s) <==> |s| >= 1 && IsHostChar(s[|s| - 1])
  {
    if |s| >= 1 && IsHostChar(s[|s| - 1]) {
      assert HostCharsFrom(s, |s| - 1);
    }
    if HostNameMatchesAsWritten(s) {
      var i :| 0 <= i < |s| && HostCharsFrom(s, i);
      assert IsHostChar(s[|s| - 1]);
    }
  }

  /**
   * The input that shows it: any text ending in a host character passes
   * as written, such as "bad host!x", while the anchored pattern refuses
   * every text with a space in it.
   */
  lemma HostNameAsWrittenAcceptsAnything(prefix: string)
    requires ' ' in prefix
    ensures HostNameMatchesAsWritten(prefix + "x")
    ensures !IsHostName(prefix + "x")
  {
    var s := prefix + "x";
    HostNameAsWrittenLastChar(s);
    var k :| 0 <= k < |prefix| && prefix[k] == ' ';
    assert s[k] == ' ';
  }

  /** Anchoring only narrows the pattern: what it accepts, the unanchored one accepts too. */
  lemma HostNameAnchored(s: string)
    requires IsHostName(s)
    ensures HostNameMatchesAsWritten(s)
  {
    HostNameAsWrittenLastChar(s);
  }
}
