/**
 * `ParseResult` of src/pnp/JSON.ts: the tokens, line lengths and value a
 * parse produced, and the queries that translate between character indexes,
 * line and column positions, tokens and values.
 */
module JsonParseResult {
  import opened Wrappers
  import opened Language
  import opened JsonTokenizer
  import opened JsonValues

  /** The span a token covers (`Token.span`). */
  function TokenSpan(t: Token): (r: Span)
    ensures r.startIndex == t.startIndex && r.length == t.Length() && r.length >= 0
  {
    Span(t.startIndex, t.Length())
  }

  /** The tokens, line lengths and value of one parse; the value is absent for a text holding none. */
  datatype ParseResult = ParseResult(tokens: seq<Token>, lineLengths: seq<int>, value: Option<Value>)

  /**
   * The line lengths a parse records: at least one line, none negative, and
   * every line but the last at least one long, since it ends in a line break.
   */
  predicate LinesValid(lls: seq<int>)
  {
    |lls| >= 1 &&
    (forall k :: 0 <= k < |lls| ==> lls[k] >= 0) &&
    (forall k :: 0 <= k < |lls| - 1 ==> lls[k] >= 1)
  }

  /** The tokens are non-empty and each ends before the next one starts. */
  predicate Ordered(ts: seq<Token>)
  {
    (forall k :: 0 <= k < |ts| ==> ts[k].Length() > 0) &&
    (forall k, l :: 0 <= k < l < |ts| ==> ts[k].startIndex + ts[k].Length() <= ts[l].startIndex)
  }

  /** Contiguous non-empty tokens are in order. */
  lemma ContiguousOrdered(ts: seq<Token>)
    requires Contiguous(ts) && NonEmptyTokens(ts)
    ensures Ordered(ts)
  {
    forall k, l | 0 <= k < l < |ts|
      ensures ts[k].startIndex + ts[k].Length() <= ts[l].startIndex
    {
      ContiguousGap(ts, k, l);
    }
  }

  lemma {:induction false} ContiguousGap(ts: seq<Token>, k: nat, l: nat)
    requires Contiguous(ts) && NonEmptyTokens(ts) && k < l < |ts|
    ensures ts[k].startIndex + ts[k].Length() <= ts[l].startIndex
    decreases l - k
  {
    if k + 1 < l {
      ContiguousGap(ts, k + 1, l);
    }
  }

  lemma {:induction false} SumOfCons(x: int, xs: seq<int>)
    ensures SumOf([x] + xs) == x + SumOf(xs)
  {
    SumOfAppend([x], xs);
    assert SumOf([x]) == SumOf([]) + x;
  }

  lemma SumOfNonNegative(xs: seq<int>)
    requires forall k :: 0 <= k < |xs| ==> xs[k] >= 0
    ensures SumOf(xs) >= 0
  {
    if |xs| > 0 {
      SumOfNonNegative(xs[..|xs| - 1]);
    }
  }

  /** `maxCharacterIndex`: the sum of the line lengths, that is, the length of the text. */
  method MaxCharacterIndex(pr: ParseResult) returns (r: int)
    ensures r == SumOf(pr.lineLengths)
  {
    r := 0;
    for i := 0 to |pr.lineLengths|
      invariant r == SumOf(pr.lineLengths[..i])
    {
      assert pr.lineLengths[..i + 1][..i] == pr.lineLengths[..i];
      r := r + pr.lineLengths[i];
    }
    assert pr.lineLengths[..|pr.lineLengths|] == pr.lineLengths;
  }

  /**
   * `getMaxColumnIndex`: a line's length, less one for every line but the
   * last, whose end is a position of its own.
   */
  function GetMaxColumnIndex(pr: ParseResult, lineIndex: int): (r: int)
    requires 0 <= lineIndex < |pr.lineLengths|
    ensures pr.lineLengths[lineIndex] - 1 <= r <= pr.lineLengths[lineIndex]
    ensures r == pr.lineLengths[lineIndex] <==> lineIndex == |pr.lineLengths| - 1
  {
    if lineIndex < |pr.lineLengths| - 1 then pr.lineLengths[lineIndex] - 1 else pr.lineLengths[lineIndex]
  }

  /**
   * `getCharacterIndex`: the column plus the lengths of the lines before the
   * line; its assertions bound the line and the column.
   */
  method GetCharacterIndex(pr: ParseResult, lineIndex: int, columnIndex: int) returns (r: int)
    requires LinesValid(pr.lineLengths)
    requires 0 <= lineIndex < |pr.lineLengths|
    requires 0 <= columnIndex <= GetMaxColumnIndex(pr, lineIndex)
    ensures r == columnIndex + SumOf(pr.lineLengths[..lineIndex])
    ensures 0 <= r <= SumOf(pr.lineLengths)
  {
    r := columnIndex;
    for i := 0 to lineIndex
      invariant r == columnIndex + SumOf(pr.lineLengths[..i])
    {
      assert pr.lineLengths[..i + 1][..i] == pr.lineLengths[..i];
      r := r + pr.lineLengths[i];
    }
    IndexWithinText(pr.lineLengths, lineIndex, columnIndex);
  }

  /** A valid line and column lie inside the text. */
  lemma IndexWithinText(lls: seq<int>, line: nat, column: int)
    requires LinesValid(lls) && line < |lls| && 0 <= column <= lls[line]
    ensures 0 <= column + SumOf(lls[..line]) <= SumOf(lls)
  {
    assert lls == lls[..line] + [lls[line]] + lls[line + 1..];
    SumOfAppend(lls[..line] + [lls[line]], lls[line + 1..]);
    SumOfAppend(lls[..line], [lls[line]]);
    assert SumOf([lls[line]]) == SumOf([]) + lls[line];
    SumOfNonNegative(lls[..line]);
    SumOfNonNegative(lls[line + 1..]);
  }

  /**
   * The loop of `getPositionFromCharacterIndex` as the source writes it:
   * every line no longer than the remaining index is stepped over, the last
   * line included, so an index at the end of the last line lands on a line
   * that does not exist.
   */
  function PositionAsWritten(lls: seq<int>, index: int): (r: Position)
    ensures r.line <= |lls|
  {
    if |lls| == 0 then Position(0, 0)
    else if lls[0] <= index then
      var p := PositionAsWritten(lls[1..], index - lls[0]);
      Position(p.line + 1, p.column)
    else Position(0, index)
  }

  /** The position of an index, never stepping past the last line. */
  function PositionOf(lls: seq<int>, index: int): (r: Position)
    ensures |lls| > 0 ==> r.line < |lls|
  {
    if |lls| == 0 then Position(0, 0)
    else if |lls| > 1 && lls[0] <= index then
      var p := PositionOf(lls[1..], index - lls[0]);
      Position(p.line + 1, p.column)
    else Position(0, index)
  }

  /**
   * `getPositionFromCharacterIndex`: the line and column of a character
   * index, with the loop stopping at the last line.
   */
  method GetPositionFromCharacterIndex(pr: ParseResult, characterIndex: int) returns (r: Position)
    requires 0 <= characterIndex
    ensures r == PositionOf(pr.lineLengths, characterIndex)
  {
    var lls := pr.lineLengths;
    var index := characterIndex;
    var line := 0;
    var column := 0;
    var i := 0;
    while i < |lls|
      invariant 0 <= i <= |lls| && line == i
      invariant PositionOf(lls, characterIndex) ==
        (if i == |lls| then Position(line, 0) else var p := PositionOf(lls[i..], index); Position(p.line + line, p.column))
      decreases |lls| - i
    {
      assert lls[i..][1..] == lls[i + 1..];
      if lls[i] <= index && i < |lls| - 1 {
        line := line + 1;
        index := index - lls[i];
      } else {
        column := index;
        break;
      }
      i := i + 1;
    }
    if i == |lls| {
      column := 0;
    }
    r := Position(line, column);
  }

  /** The line lengths after the first line are valid too. */
  lemma LinesValidTail(lls: seq<int>)
    requires LinesValid(lls) && |lls| > 1
    ensures LinesValid(lls[1..])
  {
    var rest := lls[1..];
    forall k | 0 <= k < |rest|
      ensures rest[k] == lls[k + 1]
    {
    }
  }

  /**
   * Every valid line and column survives the trip to a character index and
   * back.
   */
  lemma {:induction false} PositionOfIndex(lls: seq<int>, line: nat, column: int)
    requires LinesValid(lls) && line < |lls|
    requires 0 <= column && (line < |lls| - 1 ==> column < lls[line]) && (line == |lls| - 1 ==> column <= lls[line])
    ensures PositionOf(lls, column + SumOf(lls[..line])) == Position(line, column)
    decreases line
  {
    if line > 0 {
      var rest := lls[1..];
      LinesValidTail(lls);
      assert rest[line - 1] == lls[line];
      PositionOfIndex(rest, line - 1, column);
      assert lls[..line] == [lls[0]] + rest[..line - 1];
      SumOfCons(lls[0], rest[..line - 1]);
      SumOfNonNegative(rest[..line - 1]);
    }
  }

  /** Every index inside the text survives the trip to a position and back. */
  lemma {:induction false} IndexOfPosition(lls: seq<int>, index: int)
    requires LinesValid(lls) && 0 <= index <= SumOf(lls)
    ensures var p := PositionOf(lls, index);
      0 <= p.line < |lls| && 0 <= p.column <= GetMaxColumnIndex(ParseResult([], lls, None), p.line) &&
      p.column + SumOf(lls[..p.line]) == index
    decreases |lls|
  {
    var rest := lls[1..];
    assert lls == [lls[0]] + rest;
    SumOfCons(lls[0], rest);
    if |lls| > 1 && lls[0] <= index {
      LinesValidTail(lls);
      IndexOfPosition(rest, index - lls[0]);
      var p := PositionOf(rest, index - lls[0]);
      assert GetMaxColumnIndex(ParseResult([], lls, None), p.line + 1) == GetMaxColumnIndex(ParseResult([], rest, None), p.line);
      assert lls[..p.line + 1] == [lls[0]] + rest[..p.line];
      SumOfCons(lls[0], rest[..p.line]);
    } else if |lls| > 1 {
      assert index < lls[0];
    } else {
      assert rest == [];
    }
  }

  /**
   * The loop as written does not give back the end of a text that has no
   * line break ("ab", line lengths [2]: index 2 is line 0, column 2, but the
   * loop answers line 1), nor the start of an empty last line ("a" and a line
   * break, line lengths [2, 0]: index 2 is line 1, column 0, but the loop
   * answers line 2).
   */
  lemma PositionAsWrittenOverruns()
    ensures LinesValid([2]) && PositionAsWritten([2], 2) == Position(1, 0) && PositionOf([2], 2) == Position(0, 2)
    ensures LinesValid([2, 0]) && PositionAsWritten([2, 0], 2) == Position(2, 0) && PositionOf([2, 0], 2) == Position(1, 0)
  {
    assert [2][1..] == [];
    assert [2, 0][1..] == [0];
    assert [0][1..] == [];
  }

  /** Before the start of the last line, the loop as written and the corrected one agree. */
  lemma {:induction false} PositionAsWrittenAgrees(lls: seq<int>, index: int)
    requires |lls| >= 1 && index < SumOf(lls[..|lls| - 1])
    requires forall k :: 0 <= k < |lls| ==> lls[k] >= 0
    ensures PositionAsWritten(lls, index) == PositionOf(lls, index)
    decreases |lls|
  {
    var rest := lls[1..];
    if |lls| == 1 {
      assert lls[..0] == [];
    } else {
      assert lls[..|lls| - 1] == [lls[0]] + rest[..|rest| - 1];
      SumOfCons(lls[0], rest[..|rest| - 1]);
      if lls[0] <= index {
        forall k | 0 <= k < |rest| ensures rest[k] >= 0 {
          assert rest[k] == lls[k + 1];
        }
        PositionAsWrittenAgrees(rest, index - lls[0]);
      }
    }
  }

  /** A token covers an index from its start through its last character. */
  predicate Covers(t: Token, index: int)
  {
    TokenSpan(t).startIndex <= index <= TokenSpan(t).EndIndex()
  }

  /**
   * `getTokenAtCharacterIndex`: the last token when the index is right after
   * it; otherwise a binary search for the token that covers the index.
   */
  method GetTokenAtCharacterIndex(pr: ParseResult, characterIndex: int) returns (r: Option<Token>)
    requires 0 <= characterIndex
    ensures r.Some? ==> r.value in pr.tokens
    ensures r.Some? ==>
      (Covers(r.value, characterIndex) ||
       (r.value == pr.tokens[|pr.tokens| - 1] && TokenSpan(r.value).AfterEndIndex() == characterIndex))
    ensures |pr.tokens| > 0 && TokenSpan(pr.tokens[|pr.tokens| - 1]).AfterEndIndex() == characterIndex ==>
      r == Some(pr.tokens[|pr.tokens| - 1])
    ensures Ordered(pr.tokens) && r.None? ==> forall t <- pr.tokens :: !Covers(t, characterIndex)
  {
    var ts := pr.tokens;
    if |ts| > 0 && TokenSpan(ts[|ts| - 1]).AfterEndIndex() == characterIndex {
      return Some(ts[|ts| - 1]);
    }
    r := None;
    var lo, hi := 0, |ts| - 1;
    while r.None? && lo <= hi
      invariant 0 <= lo <= hi + 1 <= |ts|
      invariant r.Some? ==> r.value in ts && Covers(r.value, characterIndex)
      invariant Ordered(ts) ==> forall k :: 0 <= k < lo ==> !Covers(ts[k], characterIndex)
      invariant Ordered(ts) ==> forall k :: hi < k < |ts| ==> !Covers(ts[k], characterIndex)
      decreases hi - lo + 1, r.None?
    {
      var mid := (hi + lo) / 2;
      var span := TokenSpan(ts[mid]);
      if characterIndex < span.startIndex {
        hi := mid - 1;
      } else if span.EndIndex() < characterIndex {
        lo := mid + 1;
      } else {
        r := Some(ts[mid]);
      }
    }
  }

  /**
   * The value the descent of `getValueAtCharacterIndex` moves to from `v`:
   * a property's name, else its value, when it contains the index; an
   * object's or array's last member that contains it; otherwise none. Ends
   * count as contained.
   */
  function LastContaining(vs: seq<Value>, index: int): (r: Option<nat>)
    ensures r.Some? ==> r.value < |vs| && vs[r.value].span.Contains(index, true)
    ensures r.Some? ==> forall j :: r.value < j < |vs| ==> !vs[j].span.Contains(index, true)
    ensures r.None? ==> forall j :: 0 <= j < |vs| ==> !vs[j].span.Contains(index, true)
  {
    if |vs| == 0 then None
    else if vs[|vs| - 1].span.Contains(index, true) then Some(|vs| - 1)
    else LastContaining(vs[..|vs| - 1], index)
  }

  function Child(v: Value, index: int): (r: Option<Value>)
    ensures r.Some? ==> r.value.span.Contains(index, true)
  {
    match v
    case PropertyValue(_, name, value) =>
      if name.span.Contains(index, true) then Some(name)
      else if value.span.Contains(index, true) then Some(value)
      else None
    case ObjectValue(_, props) =>
      (match LastContaining(props, index)
       case Some(k) => Some(props[k])
       case None => None)
    case ArrayValue(_, elements) =>
      (match LastContaining(elements, index)
       case Some(k) => Some(elements[k])
       case None => None)
    case _ => None
  }

  /** The innermost value reached from `v` by the descent. */
  function ValueAt(v: Value, index: int): Value
  {
    match v
    case PropertyValue(_, name, value) =>
      if name.span.Contains(index, true) then ValueAt(name, index)
      else if value.span.Contains(index, true) then ValueAt(value, index)
      else v
    case ObjectValue(_, props) =>
      (match LastContaining(props, index)
       case Some(k) => ValueAt(props[k], index)
       case None => v)
    case ArrayValue(_, elements) =>
      (match LastContaining(elements, index)
       case Some(k) => ValueAt(elements[k], index)
       case None => v)
    case _ => v
  }

  /** The descent steps to the child while there is one. */
  lemma ValueAtStep(v: Value, index: int)
    ensures Child(v, index).None? ==> ValueAt(v, index) == v
    ensures Child(v, index).Some? ==> ValueAt(v, index) == ValueAt(Child(v, index).value, index)
  {
  }

  /**
   * The value found contains the index, and none of its parts does: it is
   * the innermost value there.
   */
  lemma {:induction false} ValueAtInnermost(v: Value, index: int)
    requires v.span.Contains(index, true)
    ensures ValueAt(v, index).span.Contains(index, true)
    ensures Child(ValueAt(v, index), index).None?
    decreases v
  {
    ValueAtStep(v, index);
    match Child(v, index)
    case None =>
    case Some(w) =>
      match v
      case PropertyValue(_, name, value) =>
        if name.span.Contains(index, true) {
          ValueAtInnermost(name, index);
        } else {
          ValueAtInnermost(value, index);
        }
      case ObjectValue(_, props) =>
        ValueAtInnermost(props[LastContaining(props, index).value], index);
      case ArrayValue(_, elements) =>
        ValueAtInnermost(elements[LastContaining(elements, index).value], index);
  }

  /** The last member of `vs` that contains the index, or `v` when none does: the inner loops of the descent. */
  method LastContainingOr(vs: seq<Value>, index: int, v: Value) returns (r: Value)
    ensures r == match LastContaining(vs, index) case Some(k) => vs[k] case None => v
  {
    r := v;
    for i := 0 to |vs|
      invariant r == match LastContaining(vs[..i], index) case Some(k) => vs[k] case None => v
    {
      assert vs[..i + 1][..i] == vs[..i];
      if vs[i].span.Contains(index, true) {
        r := vs[i];
      }
    }
    assert vs[..|vs|] == vs;
  }

  /** One pass of the descent: the child that contains the index, or `v` itself. */
  method Descend(v: Value, index: int) returns (r: Value)
    ensures r == match Child(v, index) case Some(w) => w case None => v
  {
    r := v;
    match v
    case PropertyValue(_, name, value) =>
      if name.span.Contains(index, true) {
        r := name;
      } else if value.span.Contains(index, true) {
        r := value;
      }
    case ObjectValue(_, props) =>
      r := LastContainingOr(props, index, v);
    case ArrayValue(_, elements) =>
      r := LastContainingOr(elements, index, v);
    case _ =>
  }

  /**
   * `getValueAtCharacterIndex`: descends from the parsed value while some
   * part contains the index. A result without a value fails, since the
   * source reads the span of null.
   */
  method GetValueAtCharacterIndex(pr: ParseResult, characterIndex: int) returns (r: Result<Option<Value>>)
    requires 0 <= characterIndex
    ensures pr.value.None? <==> r.Err?
    ensures pr.value.Some? ==>
      r == Ok(if pr.value.value.span.Contains(characterIndex, true) then Some(ValueAt(pr.value.value, characterIndex)) else None)
  {
    if pr.value.None? {
      return Err("TypeError: Cannot read property 'span' of null");
    }
    var root := pr.value.value;
    if !root.span.Contains(characterIndex, true) {
      return Ok(None);
    }
    var current := root;
    var result: Option<Value> := None;
    while result.None?
      invariant result.None? ==> ValueAt(current, characterIndex) == ValueAt(root, characterIndex)
      invariant result.Some? ==> result.value == ValueAt(root, characterIndex)
      decreases result.None?, current
    {
      var currentValue := current;
      ValueAtStep(currentValue, characterIndex);
      current := Descend(currentValue, characterIndex);
      if current == currentValue {
        result := Some(current);
      }
    }
    r := Ok(result);
  }
}
