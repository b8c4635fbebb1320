/**
 * Character spans, positions and issues of the JSON text model
 * (src/DigitalTwin/Language.ts). A span is an immutable pair of a start
 * index and a length.
 */
module Language {
  import opened Wrappers

  datatype Span = Span(startIndex: int, length: int)
  {
    /** The last index inside the span; an empty span reports its start. */
    function EndIndex(): int
    {
      startIndex + (if length > 0 then length - 1 else 0)
    }

    /** The index directly after the span. */
    function AfterEndIndex(): int
    {
      startIndex + length
    }

    /** `contains(index, includeAfterEndIndex)`. */
    predicate Contains(index: int, includeAfterEndIndex: bool := false)
    {
      startIndex <= index &&
      (if includeAfterEndIndex then index <= AfterEndIndex() else index <= EndIndex())
    }

    /**
     * `union(rhs)`: the smallest span from the lesser start to the greater
     * after-end index; a missing (null) right-hand side gives this span back.
     */
    function Union(rhs: Option<Span>): (r: Span)
      ensures rhs.None? ==> r == this
      ensures rhs.Some? ==> r.startIndex <= startIndex && r.startIndex <= rhs.value.startIndex
      ensures rhs.Some? ==> r.AfterEndIndex() >= AfterEndIndex() && r.AfterEndIndex() >= rhs.value.AfterEndIndex()
      ensures rhs.Some? ==> (r.startIndex == startIndex || r.startIndex == rhs.value.startIndex)
      ensures rhs.Some? ==> (r.AfterEndIndex() == AfterEndIndex() || r.AfterEndIndex() == rhs.value.AfterEndIndex())
    {
      match rhs
      case None => this
      case Some(other) =>
        var minStart := if startIndex <= other.startIndex then startIndex else other.startIndex;
        var maxAfterEnd := if AfterEndIndex() >= other.AfterEndIndex() then AfterEndIndex() else other.AfterEndIndex();
        Span(minStart, maxAfterEnd - minStart)
    }

    /** `translate(movement)`: the same span, or a copy moved by `movement`. */
    function Translate(movement: int): (r: Span)
      ensures r.length == length
      ensures r.startIndex == startIndex + movement
      ensures movement == 0 ==> r == this
    {
      if movement == 0 then this else Span(startIndex + movement, length)
    }
  }

  /** A non-empty span holds exactly the indexes of [start, start + length). */
  lemma ContainsNonEmpty(s: Span, index: int)
    requires s.length >= 1
    ensures s.Contains(index) <==> s.startIndex <= index < s.AfterEndIndex()
    ensures s.Contains(index, true) <==> s.startIndex <= index <= s.AfterEndIndex()
  {
  }

  /** An empty span still contains its own start index. */
  lemma ContainsEmpty(s: Span, index: int)
    requires s.length == 0
    ensures s.Contains(index) <==> index == s.startIndex
  {
  }

  /**
   * Every index a span contains, counting its after-end index, is contained
   * the same way by its union with another span.
   */
  lemma UnionCoversAfterEnd(a: Span, b: Span, index: int)
    requires a.length >= 0 && b.length >= 0
    ensures a.Contains(index, true) ==> a.Union(Some(b)).Contains(index, true)
    ensures b.Contains(index, true) ==> a.Union(Some(b)).Contains(index, true)
  {
  }

  /**
   * For non-empty spans the union also covers every contained index. (An
   * empty span at 5 "contains" 5, but its union with [0, 3) is [0, 5), which
   * does not.)
   */
  lemma UnionCovers(a: Span, b: Span, index: int)
    requires a.length >= 1 && b.length >= 1
    ensures a.Contains(index) ==> a.Union(Some(b)).Contains(index)
    ensures b.Contains(index) ==> a.Union(Some(b)).Contains(index)
  {
  }

  /** The empty-span case excluded above, on concrete values. */
  lemma UnionOfEmptySpan()
    ensures Span(5, 0).Contains(5)
    ensures !Span(5, 0).Union(Some(Span(0, 3))).Contains(5)
  {
  }

  /** The union does not depend on the order of its operands. */
  lemma UnionCommutes(a: Span, b: Span)
    ensures a.Union(Some(b)) == b.Union(Some(a))
  {
  }

  /** Two translations add up. */
  lemma TranslateTwice(s: Span, m: int, n: int)
    ensures s.Translate(m).Translate(n) == s.Translate(m + n)
  {
  }

  /** A line/column pair; the source asserts both are non-negative. */
  datatype Position = Position(line: int, column: int)

  /** `new Position(line, column)`: the constructor's assertions fail on a negative value. */
  function NewPosition(line: int, column: int): (r: Result<Position>)
    ensures r.Ok? <==> line >= 0 && column >= 0
    ensures r.Ok? ==> r.value.line == line && r.value.column == column
  {
    if line < 0 then Err("_line cannot be less than 0")
    else if column < 0 then Err("_column cannot be less than 0")
    else Ok(Position(line, column))
  }

  /** A problem found in a document: a span of at least one character and a message. */
  datatype Issue = Issue(span: Span, message: string)
  {
    predicate Valid() { span.length >= 1 && message != "" }

    /** `translate(movement)`: the message is kept and the span moved. */
    function Translate(movement: int): (r: Issue)
      ensures r.message == message && r.span == span.Translate(movement)
      ensures Valid() ==> r.Valid()
    {
      Issue(span.Translate(movement), message)
    }
  }

  /** `new Issue(span, message)`: the constructor asserts a span of length >= 1 and a non-empty message. */
  function NewIssue(span: Span, message: string): (r: Result<Issue>)
    ensures r.Ok? <==> span.length >= 1 && message != ""
    ensures r.Ok? ==> r.value == Issue(span, message) && r.value.Valid()
  {
    if span.length < 1 then Err("_span's length must be greater than or equal to 1.")
    else if message == "" then Err("_message must not be empty.")
    else Ok(Issue(span, message))
  }
}
