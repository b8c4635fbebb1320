/**
 * The recursive-descent parser of src/pnp/JSON.ts.
 *
 * The parser reads tokens from a `Tokenizer` and records every token that is
 * not white space or a comment. It is tolerant: unexpected tokens are skipped
 * rather than reported. One input shape makes it fail: an object property
 * whose value position holds a token that starts no value (`{"a": ,}`); the
 * source then dereferences a null value, which is modelled as `Err`.
 */
module JsonParser {
  import opened Wrappers
  import opened Language
  import opened JsonTokenizer
  import opened JsonValues
  import opened JsonParseResult
  import Utilities

  /** The parser's one failure: reading the span of a property value that is null. */
  const NullSpanError := "TypeError: Cannot read property 'span' of null"

  /** The value a single token stands for, if it stands for one by itself. */
  function LeafValue(t: Token): (r: Option<Value>)
    ensures r.Some? <==> t.tokenType == QuotedString || t.tokenType == Number || t.tokenType == Boolean || t.tokenType == Null
    ensures r.Some? ==> r.value.span == TokenSpan(t) && Nested(r.value)
  {
    match t.tokenType
    case QuotedString => Some(StringValue(TokenSpan(t), Utilities.Unquote(t.Text())))
    case Number => Some(NumberValue(TokenSpan(t), t.Text()))
    case Boolean => Some(BooleanValue(TokenSpan(t), t.Text() == "true"))
    case Null => Some(NullValue(TokenSpan(t)))
    case _ => None
  }

  /**
   * The parser's view of the tokenizer: it is valid, the recorded tokens are
   * exactly the significant tokens produced so far, and the current token,
   * if any, is significant.
   */
  ghost predicate Tracking(tz: Tokenizer, tokens: seq<Token>)
    reads tz
  {
    tz.Valid() && tokens == Significant(tz.produced) &&
    (tz.current.Some? ==> !IsTrivia(tz.current.value))
  }

  /** `next`: moves to the next significant token and records it. */
  method Next(tz: Tokenizer, tokens: seq<Token>) returns (tokens': seq<Token>)
    requires Tracking(tz, tokens)
    modifies tz
    ensures Tracking(tz, tokens')
    ensures tz.current.Some? ==> tokens' == tokens + [tz.current.value]
    ensures tz.current.None? ==> tokens' == tokens
    ensures tz.HasStarted() && tz.Remaining() <= old(tz.Remaining())
    ensures old(tz.current).Some? || !old(tz.HasStarted()) ==> tz.Remaining() < old(tz.Remaining())
    ensures tz.currentTokenStartIndex >= old(tz.currentTokenStartIndex)
  {
    tokens' := tokens;
    ghost var before := tz.produced;
    var more := tz.MoveNext();
    while more
      invariant tz.Valid() && more == tz.current.Some? && tz.HasStarted()
      invariant more ==> tz.produced == before + [tz.current.value]
      invariant !more ==> tz.produced == before
      invariant tokens' == tokens == Significant(before)
      invariant tz.Remaining() <= old(tz.Remaining())
      invariant old(tz.current).Some? || !old(tz.HasStarted()) ==> tz.Remaining() < old(tz.Remaining())
      invariant tz.currentTokenStartIndex >= old(tz.currentTokenStartIndex)
      decreases tz.Remaining()
    {
      var t := tz.current.value;
      if !IsTrivia(t) {
        assert tz.produced[..|tz.produced| - 1] == before;
        tokens' := tokens' + [t];
        return;
      }
      assert tz.produced[..|tz.produced| - 1] == before;
      before := tz.produced;
      more := tz.MoveNext();
    }
  }


  /**
   * The index among the significant tokens of the whole input of the current
   * token; once the input is exhausted, the number of significant tokens.
   */
  ghost function Index(current: Option<Token>, tokens: seq<Token>): nat
  {
    if current.Some? && |tokens| > 0 then |tokens| - 1 else |tokens|
  }

  /**
   * The current token is the significant token of the whole input at its
   * index; once the input is exhausted, the index is past the last one.
   */
  lemma TrackingAt(tz: Tokenizer, tokens: seq<Token>)
    requires Tracking(tz, tokens)
    ensures Index(tz.current, tokens) <= |Significant(tz.all)|
    ensures tz.current.Some? ==>
      |tokens| > 0 && Index(tz.current, tokens) < |Significant(tz.all)| &&
      Significant(tz.all)[Index(tz.current, tokens)] == tz.current.value
    ensures tz.HasStarted() && tz.current.None? ==> Index(tz.current, tokens) == |Significant(tz.all)|
    ensures !tz.HasStarted() ==> tokens == []
  {
    var rest := Tokens(tz.basics, tz.Consumed(), tz.NextStart());
    SignificantAppend(tz.produced, rest);
    if tz.current.Some? {
      assert tz.produced[..|tz.produced| - 1] + [tz.current.value] == tz.produced;
    }
    if tz.HasStarted() && tz.current.None? {
      assert rest == [];
    }
  }

  /** Moving on from a current token moves the index on by one. */
  lemma NextIndex(current: Option<Token>, tokens: seq<Token>, current': Option<Token>, tokens': seq<Token>)
    requires current.Some? && |tokens| > 0
    requires current'.Some? ==> tokens' == tokens + [current'.value]
    requires current'.None? ==> tokens' == tokens
    ensures Index(current', tokens') == Index(current, tokens) + 1
  {
  }

  // ----- the grammar the parser reads -------------------------------------------

  /**
   * The reference parser: what `parseValue` reads at the `k`-th significant
   * token, and the index of the token after it. Past the last token there is
   * no value; a brace or bracket starts an object or array; a string, number,
   * boolean or null token is a value by itself; any other token is no value
   * and is not consumed.
   */
  function ValueAt(ts: seq<Token>, k: nat): (r: Result<(Option<Value>, nat)>)
    ensures r.Ok? ==> k <= r.value.1
    ensures r.Ok? && r.value.0.Some? ==> k < r.value.1
    ensures r.Ok? && r.value.0.None? ==> r.value.1 == k
    ensures r.Ok? && k < |ts| && ts[k].tokenType == LeftCurly ==> r.value.0.Some? && r.value.0.value.ObjectValue?
    ensures r.Ok? && k < |ts| && ts[k].tokenType == LeftSquare ==> r.value.0.Some? && r.value.0.value.ArrayValue?
    ensures r.Err? ==> r.error == NullSpanError
    decreases |ts| - k, 0, 0
  {
    if k >= |ts| then Ok((None, k))
    else if ts[k].tokenType == LeftCurly then
      match ObjectFrom(ts, k + 1, ObjectState(TokenSpan(ts[k]), [], None, None, false))
      case Ok((v, next)) => Ok((Some(v), next))
      case Err(e) => Err(e)
    else if ts[k].tokenType == LeftSquare then
      match ArrayFrom(ts, k + 1, TokenSpan(ts[k]), [], true)
      case Ok((v, next)) => Ok((Some(v), next))
      case Err(e) => Err(e)
    else
      var leaf := LeafValue(ts[k]);
      Ok((leaf, if leaf.Some? then k + 1 else k))
  }

  /** `ValueAt` at a left brace: the object that starts there. */
  lemma CurlyValue(ts: seq<Token>, k: nat, obj: Result<Value>, r: Result<Option<Value>>, next: nat)
    requires k < |ts| && ts[k].tokenType == LeftCurly
    requires ObjectFrom(ts, k + 1, ObjectState(TokenSpan(ts[k]), [], None, None, false)) ==
      if obj.Ok? then Ok((obj.value, next)) else Err(obj.error)
    requires r == if obj.Ok? then Ok(Some(obj.value)) else Err(obj.error)
    ensures ValueAt(ts, k) == if r.Ok? then Ok((r.value, next)) else Err(r.error)
  {
  }

  /** `ValueAt` at a left bracket: the array that starts there. */
  lemma SquareValue(ts: seq<Token>, k: nat, arr: Result<Value>, r: Result<Option<Value>>, next: nat)
    requires k < |ts| && ts[k].tokenType == LeftSquare
    requires ArrayFrom(ts, k + 1, TokenSpan(ts[k]), [], true) ==
      if arr.Ok? then Ok((arr.value, next)) else Err(arr.error)
    requires r == if arr.Ok? then Ok(Some(arr.value)) else Err(arr.error)
    ensures ValueAt(ts, k) == if r.Ok? then Ok((r.value, next)) else Err(r.error)
  {
  }

  /** `ValueAt` past the end and at a token that is neither a brace nor a bracket. */
  lemma PlainValue(ts: seq<Token>, k: nat, leaf: Option<Value>, next: nat)
    requires k < |ts| ==> ts[k].tokenType != LeftCurly && ts[k].tokenType != LeftSquare
    requires leaf == if k < |ts| then LeafValue(ts[k]) else None
    requires next == if k < |ts| && LeafValue(ts[k]).Some? then k + 1 else k
    ensures ValueAt(ts, k) == Ok((leaf, next))
  {
  }

  /**
   * The value of a property whose colon has been read, at the `k`-th token:
   * the object state with the property added, and the index after the value.
   * A token that starts no value there is the parser's one error.
   */
  function PropertyAt(ts: seq<Token>, k: nat, s: ObjectState): (r: Result<(ObjectState, nat)>)
    requires s.propertyName.Some? && s.propertySpan.Some?
    ensures r.Ok? ==> k < r.value.1
    ensures r.Err? ==> r.error == NullSpanError
    decreases |ts| - k, 1, 0
  {
    match ValueAt(ts, k)
    case Err(e) => Err(e)
    case Ok((None, _)) => Err(NullSpanError)
    case Ok((Some(value), next)) => Ok((WithProperty(s, value), next))
  }

  /**
   * The object state once the pending property gets its value: the property
   * spans its name and value, joins the list, and no name is pending.
   */
  function WithProperty(s: ObjectState, value: Value): (r: ObjectState)
    requires s.propertyName.Some? && s.propertySpan.Some?
    ensures |r.properties| == |s.properties| + 1 && r.properties[..|s.properties|] == s.properties
    ensures r.properties[|s.properties|].PropertyValue?
    ensures r.properties[|s.properties|].name == s.propertyName.value && r.properties[|s.properties|].value == value
    ensures r.propertyName.None? && !r.foundColon
  {
    var property := PropertyValue(s.propertySpan.value.Union(Some(value.span)), s.propertyName.value, value);
    assert (s.properties + [property])[..|s.properties|] == s.properties;
    ObjectState(s.objectSpan.Union(Some(value.span)), s.properties + [property], None, None, false)
  }

  /** `PropertyAt` once the value after the colon has been parsed. */
  lemma PropertyIs(ts: seq<Token>, k: nat, s: ObjectState, parsed: Result<Option<Value>>, r: Result<ObjectState>, next: nat)
    requires s.propertyName.Some? && s.propertySpan.Some?
    requires ValueAt(ts, k) == if parsed.Ok? then Ok((parsed.value, next)) else Err(parsed.error)
    requires r == if parsed.Err? then Err(parsed.error)
      else if parsed.value.None? then Err(NullSpanError)
      else Ok(WithProperty(s, parsed.value.value))
    ensures PropertyAt(ts, k, s) == if r.Ok? then Ok((r.value, next)) else Err(r.error)
  {
  }

  /**
   * One step of an object at the `k`-th token in state `st`: the new state,
   * whether the object is closed, and the index of the next token. A right
   * brace closes it; after the colon comes the value; any other token is
   * read as a name or the colon after one.
   */
  function ObjectStepAt(ts: seq<Token>, k: nat, st: ObjectState): (r: Result<(ObjectState, bool, nat)>)
    requires k < |ts|
    ensures r.Ok? ==> k < r.value.2 || (k == r.value.2 && r.value.0.Phase() < st.Phase())
    ensures r.Err? ==> r.error == NullSpanError
    decreases |ts| - k, 2, 0
  {
    var s := Widened(st, TokenSpan(ts[k]));
    if ts[k].tokenType == RightCurly then Ok((s, true, k + 1))
    else if s.propertyName.None? || s.propertySpan.None? || !s.foundColon then
      var (s', next) := NameStepAt(ts, k, s);
      Ok((s', false, next))
    else
      match PropertyAt(ts, k, s)
      case Err(e) => Err(e)
      case Ok((s', next)) => Ok((s', false, next))
  }

  /**
   * `ObjectStepAt` where no value is read: the closing brace, which is
   * consumed and ends the object, or a name or the colon after one.
   */
  lemma PassStep(ts: seq<Token>, k: nat, st: ObjectState, r: ObjectState, consumed: bool, done: bool, next: nat)
    requires k < |ts|
    requires var s := Widened(st, TokenSpan(ts[k]));
      ts[k].tokenType == RightCurly || s.propertyName.None? || s.propertySpan.None? || !s.foundColon
    requires done == (ts[k].tokenType == RightCurly)
    requires done ==> r == Widened(st, TokenSpan(ts[k])) && consumed
    requires !done ==> Naming(Widened(st, TokenSpan(ts[k])), ts[k]) == (r, consumed)
    requires next == if consumed then k + 1 else k
    ensures ObjectStepAt(ts, k, st) == Ok((r, done, next))
  {
  }

  /** `ObjectStepAt` where a property's value is read. */
  lemma ValueStep(ts: seq<Token>, k: nat, st: ObjectState, r: Result<ObjectState>, done: bool, next: nat)
    requires k < |ts| && ts[k].tokenType != RightCurly
    requires var s := Widened(st, TokenSpan(ts[k]));
      s.propertyName.Some? && s.propertySpan.Some? && s.foundColon
    requires !done && PropertyAt(ts, k, Widened(st, TokenSpan(ts[k]))) == if r.Ok? then Ok((r.value, next)) else Err(r.error)
    ensures ObjectStepAt(ts, k, st) == if r.Ok? then Ok((r.value, done, next)) else Err(r.error)
  {
  }

  /**
   * A step of an object that reads no value, at the `k`-th token: where no
   * name is pending a string starts one and anything else is skipped; after
   * a name a colon is expected, and anything else drops the name without
   * being consumed.
   */
  function NameStepAt(ts: seq<Token>, k: nat, s: ObjectState): (ObjectState, nat)
    requires k < |ts|
    requires s.propertyName.None? || s.propertySpan.None? || !s.foundColon
  {
    var (s', consumed) := Naming(s, ts[k]);
    (s', if consumed then k + 1 else k)
  }

  /**
   * The object state after token `t` is read as a name or the colon after
   * one, and whether `t` was consumed. Only a name dropped for want of a
   * colon leaves `t` unconsumed, and that lowers the phase.
   */
  function Naming(s: ObjectState, t: Token): (r: (ObjectState, bool))
    requires s.propertyName.None? || s.propertySpan.None? || !s.foundColon
    ensures r.0.objectSpan == s.objectSpan && r.0.properties == s.properties
    ensures !r.1 ==> r.0.Phase() < s.Phase()
  {
    var currentSpan := TokenSpan(t);
    if s.propertyName.None? || s.propertySpan.None? then
      if t.tokenType == QuotedString then
        (s.(propertySpan := Some(currentSpan), propertyName := Some(StringValue(currentSpan, Utilities.Unquote(t.Text())))), true)
      else (s, true)
    else
      var span := s.propertySpan.value.Union(Some(currentSpan));
      if t.tokenType == ColonToken then (s.(propertySpan := Some(span), foundColon := true), true)
      else (s.(propertySpan := Some(span), propertyName := None), false)
  }

  /** Reading a token of the object as a name or a colon keeps the object's invariant. */
  lemma NamingInv(s: ObjectState, t: Token, start: int)
    requires s.propertyName.None? || s.propertySpan.None? || !s.foundColon
    requires s.Inv(start) && Within(TokenSpan(t), s.objectSpan)
    ensures Naming(s, t).0.Inv(start)
  {
    if s.propertyName.Some? && s.propertySpan.Some? {
      WithinUnion(s.propertyName.value.span, s.propertySpan.value, TokenSpan(t));
    }
  }

  /** The object state with its span widened to cover `span`. */
  function Widened(st: ObjectState, span: Span): ObjectState
  {
    st.(objectSpan := st.objectSpan.Union(Some(span)))
  }

  /** The rest of an object from the `k`-th token in state `st`; the end of the input ends it too. */
  function ObjectFrom(ts: seq<Token>, k: nat, st: ObjectState): (r: Result<(Value, nat)>)
    ensures r.Ok? ==> k <= r.value.1 && r.value.0.ObjectValue?
    ensures r.Err? ==> r.error == NullSpanError
    decreases |ts| - k, 3, st.Phase()
  {
    if k >= |ts| then Ok((ObjectValue(st.objectSpan, st.properties), k))
    else
      match ObjectStepAt(ts, k, st)
      case Err(e) => Err(e)
      case Ok((s, done, next)) =>
        if done then Ok((ObjectValue(s.objectSpan, s.properties), next)) else ObjectFrom(ts, next, s)
  }

  /**
   * One step of an array at the `k`-th token: the new span, elements and
   * expectation, whether the array is closed, and the index of the next
   * token. A right bracket closes it; where an element is expected one is
   * read; after an element a comma makes the next one expected and anything
   * else is skipped.
   */
  function ArrayStepAt(ts: seq<Token>, k: nat, span: Span, elements: seq<Value>, expectElement: bool): (r: Result<(Span, seq<Value>, bool, bool, nat)>)
    requires k < |ts|
    ensures r.Ok? ==> k < r.value.4
    ensures r.Err? ==> r.error == NullSpanError
    decreases |ts| - k, 2, 0
  {
    var s := span.Union(Some(TokenSpan(ts[k])));
    if ts[k].tokenType == RightSquare then Ok((s, elements, expectElement, true, k + 1))
    else if expectElement then
      match ElementAt(ts, k, s, elements)
      case Err(e) => Err(e)
      case Ok((s', elements', expecting, next)) => Ok((s', elements', expecting, false, next))
    else Ok((s, elements, ts[k].tokenType == CommaToken, false, k + 1))
  }

  /**
   * An expected element at the `k`-th token: a value is added and the next
   * one is no longer expected; a token that starts none is skipped.
   */
  function ElementAt(ts: seq<Token>, k: nat, s: Span, elements: seq<Value>): (r: Result<(Span, seq<Value>, bool, nat)>)
    requires k < |ts|
    ensures r.Ok? ==> k < r.value.3
    ensures r.Err? ==> r.error == NullSpanError
    decreases |ts| - k, 1, 0
  {
    match ValueAt(ts, k)
    case Err(e) => Err(e)
    case Ok((Some(v), next)) => Ok((s.Union(Some(v.span)), elements + [v], false, next))
    case Ok((None, _)) => Ok((s, elements, true, k + 1))
  }

  /** The rest of an array from the `k`-th token; the end of the input ends it too. */
  function ArrayFrom(ts: seq<Token>, k: nat, span: Span, elements: seq<Value>, expectElement: bool): (r: Result<(Value, nat)>)
    ensures r.Ok? ==> k <= r.value.1 && r.value.0.ArrayValue?
    ensures r.Err? ==> r.error == NullSpanError
    decreases |ts| - k, 3, 0
  {
    if k >= |ts| then Ok((ArrayValue(span, elements), k))
    else
      match ArrayStepAt(ts, k, span, elements, expectElement)
      case Err(e) => Err(e)
      case Ok((s, elements', expecting, done, next)) =>
        if done then Ok((ArrayValue(s, elements'), next)) else ArrayFrom(ts, next, s, elements', expecting)
  }

  /** `ObjectFrom` after one step of the object, and at the end of the input. */
  lemma ObjectFromNext(ts: seq<Token>, k: nat, st: ObjectState, step: Result<ObjectState>, done: bool, next: nat)
    requires k < |ts|
    requires ObjectStepAt(ts, k, st) == if step.Ok? then Ok((step.value, done, next)) else Err(step.error)
    ensures step.Err? ==> ObjectFrom(ts, k, st) == Err(step.error)
    ensures step.Ok? && done ==> ObjectFrom(ts, k, st) == Ok((ObjectValue(step.value.objectSpan, step.value.properties), next))
    ensures step.Ok? && !done ==> ObjectFrom(ts, k, st) == ObjectFrom(ts, next, step.value)
  {
  }

  /** `ObjectFrom` at the end of the input: the object as it stands. */
  lemma ObjectFromEnd(ts: seq<Token>, k: nat, st: ObjectState)
    requires k >= |ts|
    ensures ObjectFrom(ts, k, st) == Ok((ObjectValue(st.objectSpan, st.properties), k))
  {
  }

  /** `ArrayFrom` after one step of the array. */
  lemma ArrayFromNext(ts: seq<Token>, k: nat, span: Span, elements: seq<Value>, expectElement: bool,
                      step: Result<(Span, seq<Value>, bool)>, done: bool, next: nat)
    requires k < |ts|
    requires ArrayStepAt(ts, k, span, elements, expectElement) ==
      if step.Ok? then Ok((step.value.0, step.value.1, step.value.2, done, next)) else Err(step.error)
    ensures step.Err? ==> ArrayFrom(ts, k, span, elements, expectElement) == Err(step.error)
    ensures step.Ok? && done ==> ArrayFrom(ts, k, span, elements, expectElement) == Ok((ArrayValue(step.value.0, step.value.1), next))
    ensures step.Ok? && !done ==>
      ArrayFrom(ts, k, span, elements, expectElement) == ArrayFrom(ts, next, step.value.0, step.value.1, step.value.2)
  {
  }

  /** `ArrayFrom` at the end of the input: the array as it stands. */
  lemma ArrayFromEnd(ts: seq<Token>, k: nat, span: Span, elements: seq<Value>, expectElement: bool)
    requires k >= |ts|
    ensures ArrayFrom(ts, k, span, elements, expectElement) == Ok((ArrayValue(span, elements), k))
  {
  }

  /**
   * `ArrayStepAt` where no element is read: a right bracket closes the array,
   * and after an element the token is skipped, a comma making the next one
   * expected.
   */
  lemma ArrayPass(ts: seq<Token>, k: nat, span: Span, elements: seq<Value>, expectElement: bool)
    requires k < |ts| && (ts[k].tokenType == RightSquare || !expectElement)
    ensures var closing := ts[k].tokenType == RightSquare;
      ArrayStepAt(ts, k, span, elements, expectElement) ==
      Ok((span.Union(Some(TokenSpan(ts[k]))), elements, if closing then expectElement else ts[k].tokenType == CommaToken, closing, k + 1))
  {
  }

  /** `ArrayStepAt` where an element is expected. */
  lemma ArrayElement(ts: seq<Token>, k: nat, span: Span, elements: seq<Value>, expectElement: bool,
                     r: Result<(Span, seq<Value>, bool)>, done: bool, next: nat)
    requires k < |ts| && ts[k].tokenType != RightSquare && expectElement && !done
    requires ElementAt(ts, k, span.Union(Some(TokenSpan(ts[k]))), elements) ==
      if r.Ok? then Ok((r.value.0, r.value.1, r.value.2, next)) else Err(r.error)
    ensures ArrayStepAt(ts, k, span, elements, expectElement) ==
      if r.Ok? then Ok((r.value.0, r.value.1, r.value.2, done, next)) else Err(r.error)
  {
  }

  /** `ElementAt` once the value at the token has been parsed, and the token skipped if it starts none. */
  lemma ElementIs(ts: seq<Token>, k: nat, s: Span, elements: seq<Value>, parsed: Result<Option<Value>>, after: nat,
                  r: Result<(Span, seq<Value>, bool)>, next: nat)
    requires k < |ts|
    requires ValueAt(ts, k) == if parsed.Ok? then Ok((parsed.value, after)) else Err(parsed.error)
    requires r == if parsed.Err? then Err(parsed.error)
      else if parsed.value.Some? then Ok((s.Union(Some(parsed.value.value.span)), elements + [parsed.value.value], false))
      else Ok((s, elements, true))
    requires parsed.Ok? ==> next == if parsed.value.Some? then after else after + 1
    ensures ElementAt(ts, k, s, elements) == if r.Ok? then Ok((r.value.0, r.value.1, r.value.2, next)) else Err(r.error)
  {
  }

  /** The value of a whole text: what the reference parser reads from its first significant token. */
  function ParseText(text: seq<BasicToken>): (r: Result<Option<Value>>)
    ensures r.Err? ==> r.error == NullSpanError
  {
    match ValueAt(Significant(Tokens(text, 0, 0)), 0)
    case Ok((v, _)) => Ok(v)
    case Err(e) => Err(e)
  }

  /** `parseValue`: starts the tokenizer if needed, then parses the value at the current token. */
  method ParseValue(tz: Tokenizer, tokens: seq<Token>) returns (r: Result<Option<Value>>, tokens': seq<Token>)
    requires Tracking(tz, tokens)
    modifies tz
    decreases tz.Remaining(), 3
    ensures Tracking(tz, tokens') && tz.HasStarted()
    ensures ValueAt(Significant(tz.all), Index(old(tz.current), tokens)) ==
      if r.Ok? then Ok((r.value, Index(tz.current, tokens'))) else Err(r.error)
    ensures tz.Remaining() <= old(tz.Remaining())
    ensures r.Ok? && r.value.Some? ==> tz.Remaining() < old(tz.Remaining()) && Nested(r.value.value)
    ensures r.Ok? && r.value.Some? ==> r.value.value.span.startIndex >= old(tz.currentTokenStartIndex)
    ensures tz.currentTokenStartIndex >= old(tz.currentTokenStartIndex)
  {
    tokens' := tokens;
    if !tz.HasStarted() {
      TrackingAt(tz, tokens);
      tokens' := Next(tz, tokens');
      assert Index(tz.current, tokens') == 0 == Index(old(tz.current), tokens);
    }
    r, tokens' := ParseCurrentValue(tz, tokens');
  }

  /** The `switch` of `parseValue`, on a started tokenizer. */
  method ParseCurrentValue(tz: Tokenizer, tokens: seq<Token>) returns (r: Result<Option<Value>>, tokens': seq<Token>)
    requires Tracking(tz, tokens) && tz.HasStarted()
    modifies tz
    decreases tz.Remaining(), 2
    ensures Tracking(tz, tokens') && tz.HasStarted()
    ensures ValueAt(Significant(tz.all), Index(old(tz.current), tokens)) ==
      if r.Ok? then Ok((r.value, Index(tz.current, tokens'))) else Err(r.error)
    ensures tz.Remaining() <= old(tz.Remaining())
    ensures r.Ok? && r.value.Some? ==> tz.Remaining() < old(tz.Remaining()) && Nested(r.value.value)
    ensures r.Ok? && r.value.Some? ==> r.value.value.span.startIndex >= old(tz.currentTokenStartIndex)
    ensures tz.currentTokenStartIndex >= old(tz.currentTokenStartIndex)
  {
    TrackingAt(tz, tokens);
    ghost var all, k := Significant(tz.all), Index(tz.current, tokens);
    if tz.current.Some? && tz.current.value.tokenType == LeftCurly {
      var obj;
      obj, tokens' := ParseObject(tz, tokens);
      r := if obj.Ok? then Ok(Some(obj.value)) else Err(obj.error);
      CurlyValue(all, k, obj, r, Index(tz.current, tokens'));
    } else {
      r, tokens' := ParseOther(tz, tokens);
    }
  }

  /** `parseValue` on a token that does not open an object. */
  method ParseOther(tz: Tokenizer, tokens: seq<Token>) returns (r: Result<Option<Value>>, tokens': seq<Token>)
    requires Tracking(tz, tokens) && tz.HasStarted()
    requires tz.current.Some? ==> tz.current.value.tokenType != LeftCurly
    modifies tz
    decreases tz.Remaining(), 1
    ensures Tracking(tz, tokens') && tz.HasStarted()
    ensures ValueAt(Significant(tz.all), Index(old(tz.current), tokens)) ==
      if r.Ok? then Ok((r.value, Index(tz.current, tokens'))) else Err(r.error)
    ensures tz.Remaining() <= old(tz.Remaining())
    ensures r.Ok? && r.value.Some? ==> tz.Remaining() < old(tz.Remaining()) && Nested(r.value.value)
    ensures r.Ok? && r.value.Some? ==> r.value.value.span.startIndex >= old(tz.currentTokenStartIndex)
    ensures tz.currentTokenStartIndex >= old(tz.currentTokenStartIndex)
  {
    TrackingAt(tz, tokens);
    ghost var all, k := Significant(tz.all), Index(tz.current, tokens);
    if tz.current.Some? && tz.current.value.tokenType == LeftSquare {
      var arr;
      arr, tokens' := ParseArray(tz, tokens);
      r := if arr.Ok? then Ok(Some(arr.value)) else Err(arr.error);
      SquareValue(all, k, arr, r, Index(tz.current, tokens'));
    } else {
      r, tokens' := ParseLeaf(tz, tokens);
    }
  }

  /** `parseValue` on a token that opens neither an object nor an array. */
  method ParseLeaf(tz: Tokenizer, tokens: seq<Token>) returns (r: Result<Option<Value>>, tokens': seq<Token>)
    requires Tracking(tz, tokens) && tz.HasStarted()
    requires tz.current.Some? ==> tz.current.value.tokenType != LeftCurly && tz.current.value.tokenType != LeftSquare
    modifies tz
    ensures Tracking(tz, tokens') && tz.HasStarted()
    ensures ValueAt(Significant(tz.all), Index(old(tz.current), tokens)) ==
      if r.Ok? then Ok((r.value, Index(tz.current, tokens'))) else Err(r.error)
    ensures tz.Remaining() <= old(tz.Remaining())
    ensures r.Ok? && r.value.Some? ==> tz.Remaining() < old(tz.Remaining()) && Nested(r.value.value)
    ensures r.Ok? && r.value.Some? ==> r.value.value.span.startIndex >= old(tz.currentTokenStartIndex)
    ensures tz.currentTokenStartIndex >= old(tz.currentTokenStartIndex)
  {
    TrackingAt(tz, tokens);
    ghost var all, k := Significant(tz.all), Index(tz.current, tokens);
    var leaf := if tz.current.Some? then LeafValue(tz.current.value) else None;
    r := Ok(leaf);
    tokens' := tokens;
    if leaf.Some? {
      tokens' := Next(tz, tokens');
      NextIndex(old(tz.current), tokens, tz.current, tokens');
    }
    PlainValue(all, k, leaf, Index(tz.current, tokens'));
  }

  /** The local variables of `parseObject` between two tokens. */
  datatype ObjectState = ObjectState(
    objectSpan: Span, properties: seq<Value>,
    propertySpan: Option<Span>, propertyName: Option<Value>, foundColon: bool)
  {
    /** Orders the one step that reads no token: dropping a name not followed by a colon. */
    function Phase(): nat
    {
      if propertyName.Some? && !foundColon then 1 else 0
    }

    /** The object starts at `start`, and every property and the pending name lie inside it. */
    predicate Inv(start: int)
    {
      objectSpan.startIndex == start && objectSpan.length >= 0 &&
      (forall p <- properties :: p.PropertyValue? && Within(p.span, objectSpan) && Nested(p)) &&
      (propertyName.Some? ==>
        propertySpan.Some? && propertyName.value.StringValue? && Nested(propertyName.value) &&
        Within(propertyName.value.span, propertySpan.value) && Within(propertySpan.value, objectSpan) &&
        propertySpan.value.length >= 0) &&
      (foundColon ==> propertyName.Some?)
    }
  }

  /** Widening the object's span keeps its invariant and covers the new span. */
  lemma WidenedInv(st: ObjectState, s: Span, start: int)
    requires st.Inv(start) && s.length >= 0 && s.startIndex >= start
    ensures Widened(st, s).Inv(start) && Within(s, Widened(st, s).objectSpan)
  {
    forall p <- st.properties ensures Within(p.span, Widened(st, s).objectSpan) {
      WithinUnion(p.span, st.objectSpan, s);
    }
    if st.propertyName.Some? {
      WithinUnion(st.propertySpan.value, st.objectSpan, s);
    }
  }

  /** Adding the pending property with its value keeps the object's invariant. */
  lemma WithPropertyInv(s: ObjectState, value: Value, start: int)
    requires s.Inv(start) && s.foundColon && Nested(value)
    requires value.span.length >= 0 && value.span.startIndex >= start
    ensures WithProperty(s, value).Inv(start)
  {
    var w := Widened(s, value.span);
    WidenedInv(s, value.span, start);
    var property := PropertyValue(s.propertySpan.value.Union(Some(value.span)), s.propertyName.value, value);
    WithinUnion(s.propertyName.value.span, s.propertySpan.value, value.span);
    assert Nested(property) && Within(property.span, w.objectSpan);
    assert WithProperty(s, value) == ObjectState(w.objectSpan, w.properties + [property], None, None, false);
  }

  /** Widening an array's span keeps its elements inside it. */
  lemma ElementsWithin(elements: seq<Value>, span: Span, other: Span)
    requires forall e <- elements :: Within(e.span, span) && Nested(e)
    ensures forall e <- elements :: Within(e.span, span.Union(Some(other))) && Nested(e)
  {
    forall e <- elements ensures Within(e.span, span.Union(Some(other))) {
      WithinUnion(e.span, span, other);
    }
  }

  /**
   * One pass of the loop of `parseObject`, on the current token: a right
   * brace ends the object; after the colon a value is parsed and the property
   * recorded; any other token is read as a name or the colon after one.
   */
  method ObjectStep(tz: Tokenizer, tokens: seq<Token>, st: ObjectState, start: int)
    returns (r: Result<ObjectState>, done: bool, tokens': seq<Token>)
    requires Tracking(tz, tokens) && tz.HasStarted() && tz.current.Some? && st.Inv(start)
    requires tz.currentTokenStartIndex >= start
    modifies tz
    decreases tz.Remaining(), 5
    ensures Tracking(tz, tokens') && tz.HasStarted()
    ensures Index(old(tz.current), tokens) < |Significant(tz.all)|
    ensures ObjectStepAt(Significant(tz.all), Index(old(tz.current), tokens), st) ==
      if r.Ok? then Ok((r.value, done, Index(tz.current, tokens'))) else Err(r.error)
    ensures tz.currentTokenStartIndex >= old(tz.currentTokenStartIndex)
    ensures tz.Remaining() <= old(tz.Remaining())
    ensures r.Ok? ==> r.value.Inv(start)
    ensures r.Ok? ==> tz.Remaining() < old(tz.Remaining()) || r.value.Phase() < st.Phase()
  {
    TrackingAt(tz, tokens);
    ghost var all, k := Significant(tz.all), Index(tz.current, tokens);
    var current := tz.current.value;
    var s := Widened(st, TokenSpan(current));
    if current.tokenType != RightCurly && s.propertyName.Some? && s.propertySpan.Some? && s.foundColon {
      WidenedInv(st, TokenSpan(current), start);
      done := false;
      r, tokens' := PropertyStep(tz, tokens, s, start);
      ValueStep(all, k, st, r, done, Index(tz.current, tokens'));
    } else {
      var passed;
      passed, done, tokens' := NameStep(tz, tokens, st, start);
      r := Ok(passed);
    }
  }

  /**
   * The passes of `parseObject` that read no value: the right brace that
   * ends the object, a property's name, or the colon after it.
   */
  method NameStep(tz: Tokenizer, tokens: seq<Token>, st: ObjectState, start: int)
    returns (r: ObjectState, done: bool, tokens': seq<Token>)
    requires Tracking(tz, tokens) && tz.HasStarted() && tz.current.Some? && st.Inv(start)
    requires tz.currentTokenStartIndex >= start
    requires var s := Widened(st, TokenSpan(tz.current.value));
      tz.current.value.tokenType == RightCurly || s.propertyName.None? || s.propertySpan.None? || !s.foundColon
    modifies tz
    ensures Tracking(tz, tokens') && tz.HasStarted()
    ensures Index(old(tz.current), tokens) < |Significant(tz.all)|
    ensures ObjectStepAt(Significant(tz.all), Index(old(tz.current), tokens), st) == Ok((r, done, Index(tz.current, tokens')))
    ensures tz.currentTokenStartIndex >= old(tz.currentTokenStartIndex)
    ensures tz.Remaining() <= old(tz.Remaining())
    ensures r.Inv(start)
    ensures tz.Remaining() < old(tz.Remaining()) || r.Phase() < st.Phase()
  {
    TrackingAt(tz, tokens);
    ghost var all, k := Significant(tz.all), Index(tz.current, tokens);
    var current := tz.current.value;
    WidenedInv(st, TokenSpan(current), start);
    var s := Widened(st, TokenSpan(current));
    var consumed;
    if current.tokenType == RightCurly {
      r, consumed, done := s, true, true;
    } else {
      NamingInv(s, current, start);
      var named := Naming(s, current);
      r, consumed, done := named.0, named.1, false;
    }
    tokens' := tokens;
    if consumed {
      tokens' := Next(tz, tokens');
      NextIndex(old(tz.current), tokens, tz.current, tokens');
    }
    PassStep(all, k, st, r, consumed, done, Index(tz.current, tokens'));
  }

  /** The pass of `parseObject` that parses a property's value after the colon. */
  method PropertyStep(tz: Tokenizer, tokens: seq<Token>, s: ObjectState, start: int)
    returns (r: Result<ObjectState>, tokens': seq<Token>)
    requires Tracking(tz, tokens) && tz.HasStarted() && tz.current.Some? && s.Inv(start)
    requires tz.currentTokenStartIndex >= start && s.foundColon
    modifies tz
    decreases tz.Remaining(), 4
    ensures Tracking(tz, tokens') && tz.HasStarted()
    ensures PropertyAt(Significant(tz.all), Index(old(tz.current), tokens), s) ==
      if r.Ok? then Ok((r.value, Index(tz.current, tokens'))) else Err(r.error)
    ensures tz.currentTokenStartIndex >= old(tz.currentTokenStartIndex)
    ensures tz.Remaining() <= old(tz.Remaining())
    ensures r.Ok? ==> r.value.Inv(start) && tz.Remaining() < old(tz.Remaining())
    ensures r.Ok? ==> |r.value.properties| == |s.properties| + 1 && r.value.properties[..|s.properties|] == s.properties
    ensures r.Ok? ==> r.value.properties[|s.properties|].name == s.propertyName.value
    ensures r.Ok? ==> r.value.propertyName.None? && !r.value.foundColon
  {
    ghost var all, k := Significant(tz.all), Index(tz.current, tokens);
    var parsed;
    parsed, tokens' := ParseValue(tz, tokens);
    if parsed.Err? {
      r := Err(parsed.error);
    } else if parsed.value.None? {
      r := Err(NullSpanError);
    } else {
      WithPropertyInv(s, parsed.value.value, start);
      r := Ok(WithProperty(s, parsed.value.value));
    }
    PropertyIs(all, k, s, parsed, r, Index(tz.current, tokens'));
  }

  /** `parseObject`: the current token is a left brace. */
  method ParseObject(tz: Tokenizer, tokens: seq<Token>) returns (r: Result<Value>, tokens': seq<Token>)
    requires Tracking(tz, tokens) && tz.HasStarted()
    requires tz.current.Some? && tz.current.value.tokenType == LeftCurly
    modifies tz
    decreases tz.Remaining(), 0
    ensures Tracking(tz, tokens') && tz.HasStarted()
    ensures ObjectFrom(Significant(tz.all), Index(old(tz.current), tokens) + 1, ObjectState(TokenSpan(old(tz.current).value), [], None, None, false)) ==
      if r.Ok? then Ok((r.value, Index(tz.current, tokens'))) else Err(r.error)
    ensures tz.Remaining() < old(tz.Remaining())
    ensures tz.currentTokenStartIndex >= old(tz.currentTokenStartIndex)
    ensures r.Ok? ==> r.value.ObjectValue? && Nested(r.value)
    ensures r.Ok? ==> r.value.span.startIndex == old(tz.currentTokenStartIndex)
  {
    var open := tz.current.value;
    var st := ObjectState(TokenSpan(open), [], None, None, false);
    ghost var target := ObjectFrom(Significant(tz.all), Index(tz.current, tokens) + 1, st);
    TrackingAt(tz, tokens);
    tokens' := Next(tz, tokens);
    NextIndex(old(tz.current), tokens, tz.current, tokens');
    while tz.current.Some?
      invariant Tracking(tz, tokens') && tz.HasStarted()
      invariant target == ObjectFrom(Significant(tz.all), Index(tz.current, tokens'), st)
      invariant tz.Remaining() < old(tz.Remaining())
      invariant tz.currentTokenStartIndex >= open.startIndex
      invariant st.Inv(open.startIndex)
      decreases tz.Remaining(), st.Phase()
    {
      TrackingAt(tz, tokens');
      ghost var k := Index(tz.current, tokens');
      var step, done;
      step, done, tokens' := ObjectStep(tz, tokens', st, open.startIndex);
      ObjectFromNext(Significant(tz.all), k, st, step, done, Index(tz.current, tokens'));
      if step.Err? {
        return Err(step.error), tokens';
      }
      st := step.value;
      if done {
        return Ok(ObjectValue(st.objectSpan, st.properties)), tokens';
      }
    }
    TrackingAt(tz, tokens');
    r := Ok(ObjectValue(st.objectSpan, st.properties));
    ObjectFromEnd(Significant(tz.all), Index(tz.current, tokens'), st);
  }

  /**
   * One pass of the loop of `parseArray`, on the current token: a right
   * bracket ends the array; where an element is expected one is read; after
   * an element, a comma makes the next element expected and anything else is
   * skipped. Every pass moves the tokenizer on.
   */
  method ArrayStep(tz: Tokenizer, tokens: seq<Token>, span: Span, elements: seq<Value>, expectElement: bool, start: int)
    returns (r: Result<(Span, seq<Value>, bool)>, done: bool, tokens': seq<Token>)
    requires Tracking(tz, tokens) && tz.HasStarted() && tz.current.Some?
    requires tz.currentTokenStartIndex >= start == span.startIndex && span.length >= 0
    requires forall e <- elements :: Within(e.span, span) && Nested(e)
    modifies tz
    decreases tz.Remaining(), 5
    ensures Tracking(tz, tokens') && tz.HasStarted()
    ensures Index(old(tz.current), tokens) < |Significant(tz.all)|
    ensures ArrayStepAt(Significant(tz.all), Index(old(tz.current), tokens), span, elements, expectElement) ==
      if r.Ok? then Ok((r.value.0, r.value.1, r.value.2, done, Index(tz.current, tokens'))) else Err(r.error)
    ensures tz.currentTokenStartIndex >= old(tz.currentTokenStartIndex)
    ensures tz.Remaining() <= old(tz.Remaining())
    ensures r.Ok? ==> tz.Remaining() < old(tz.Remaining())
    ensures r.Ok? ==> r.value.0.startIndex == start && r.value.0.length >= 0
    ensures r.Ok? ==> forall e <- r.value.1 :: Within(e.span, r.value.0) && Nested(e)
  {
    TrackingAt(tz, tokens);
    ghost var all, k := Significant(tz.all), Index(tz.current, tokens);
    var current := tz.current.value;
    ElementsWithin(elements, span, TokenSpan(current));
    var s := span.Union(Some(TokenSpan(current)));
    if current.tokenType != RightSquare && expectElement {
      done := false;
      r, tokens' := ElementStep(tz, tokens, s, elements, start);
      ArrayElement(all, k, span, elements, expectElement, r, done, Index(tz.current, tokens'));
    } else {
      ArrayPass(all, k, span, elements, expectElement);
      done := current.tokenType == RightSquare;
      r := Ok((s, elements, if done then expectElement else current.tokenType == CommaToken));
      tokens' := Next(tz, tokens);
      NextIndex(old(tz.current), tokens, tz.current, tokens');
    }
  }

  /**
   * The pass of `parseArray` where an element is expected: a value is parsed
   * and added, and a token that starts none is skipped.
   */
  method ElementStep(tz: Tokenizer, tokens: seq<Token>, s: Span, elements: seq<Value>, start: int)
    returns (r: Result<(Span, seq<Value>, bool)>, tokens': seq<Token>)
    requires Tracking(tz, tokens) && tz.HasStarted() && tz.current.Some?
    requires tz.currentTokenStartIndex >= start == s.startIndex && s.length >= 0
    requires forall e <- elements :: Within(e.span, s) && Nested(e)
    modifies tz
    decreases tz.Remaining(), 4
    ensures Tracking(tz, tokens') && tz.HasStarted()
    ensures Index(old(tz.current), tokens) < |Significant(tz.all)|
    ensures ElementAt(Significant(tz.all), Index(old(tz.current), tokens), s, elements) ==
      if r.Ok? then Ok((r.value.0, r.value.1, r.value.2, Index(tz.current, tokens'))) else Err(r.error)
    ensures tz.currentTokenStartIndex >= old(tz.currentTokenStartIndex)
    ensures tz.Remaining() <= old(tz.Remaining())
    ensures r.Ok? ==> tz.Remaining() < old(tz.Remaining())
    ensures r.Ok? ==> r.value.0.startIndex == start && r.value.0.length >= 0
    ensures r.Ok? ==> forall e <- r.value.1 :: Within(e.span, r.value.0) && Nested(e)
  {
    TrackingAt(tz, tokens);
    ghost var all, k := Significant(tz.all), Index(tz.current, tokens);
    var element;
    element, tokens' := ParseValue(tz, tokens);
    ghost var after := Index(tz.current, tokens');
    if element.Err? {
      r := Err(element.error);
    } else if element.value.Some? {
      var v := element.value.value;
      ElementsWithin(elements, s, v.span);
      var s' := s.Union(Some(v.span));
      r := Ok((s', elements + [v], false));
    } else {
      TrackingAt(tz, tokens');
      ghost var before, recorded := tz.current, tokens';
      tokens' := Next(tz, tokens');
      NextIndex(before, recorded, tz.current, tokens');
      r := Ok((s, elements, true));
    }
    ElementIs(all, k, s, elements, element, after, r, Index(tz.current, tokens'));
  }

  /** `parseArray`: the current token is a left bracket. */
  method ParseArray(tz: Tokenizer, tokens: seq<Token>) returns (r: Result<Value>, tokens': seq<Token>)
    requires Tracking(tz, tokens) && tz.HasStarted()
    requires tz.current.Some? && tz.current.value.tokenType == LeftSquare
    modifies tz
    decreases tz.Remaining(), 0
    ensures Tracking(tz, tokens') && tz.HasStarted()
    ensures ArrayFrom(Significant(tz.all), Index(old(tz.current), tokens) + 1, TokenSpan(old(tz.current).value), [], true) ==
      if r.Ok? then Ok((r.value, Index(tz.current, tokens'))) else Err(r.error)
    ensures tz.Remaining() < old(tz.Remaining())
    ensures tz.currentTokenStartIndex >= old(tz.currentTokenStartIndex)
    ensures r.Ok? ==> r.value.ArrayValue? && Nested(r.value)
    ensures r.Ok? ==> r.value.span.startIndex == old(tz.currentTokenStartIndex)
  {
    var open := tz.current.value;
    var span := TokenSpan(open);
    var elements: seq<Value> := [];
    ghost var target := ArrayFrom(Significant(tz.all), Index(tz.current, tokens) + 1, span, elements, true);
    TrackingAt(tz, tokens);
    tokens' := Next(tz, tokens);
    NextIndex(old(tz.current), tokens, tz.current, tokens');
    var expectElement := true;
    while tz.current.Some?
      invariant Tracking(tz, tokens') && tz.HasStarted()
      invariant target == ArrayFrom(Significant(tz.all), Index(tz.current, tokens'), span, elements, expectElement)
      invariant tz.Remaining() < old(tz.Remaining())
      invariant tz.currentTokenStartIndex >= open.startIndex
      invariant span.startIndex == open.startIndex && span.length >= 0
      invariant forall e <- elements :: Within(e.span, span) && Nested(e)
      decreases tz.Remaining()
    {
      TrackingAt(tz, tokens');
      ghost var k := Index(tz.current, tokens');
      var step, done;
      step, done, tokens' := ArrayStep(tz, tokens', span, elements, expectElement, open.startIndex);
      ArrayFromNext(Significant(tz.all), k, span, elements, expectElement, step, done, Index(tz.current, tokens'));
      if step.Err? {
        return Err(step.error), tokens';
      }
      span, elements, expectElement := step.value.0, step.value.1, step.value.2;
      if done {
        return Ok(ArrayValue(span, elements)), tokens';
      }
    }
    TrackingAt(tz, tokens');
    r := Ok(ArrayValue(span, elements));
    ArrayFromEnd(Significant(tz.all), Index(tz.current, tokens'), span, elements, expectElement);
  }

  /**
   * `parse`: parses one value from the start of the text, then reads the
   * remaining tokens so that every significant token is recorded.
   */
  method Parse(text: seq<BasicToken>) returns (r: Result<ParseResult>)
    ensures r == match ParseText(text)
      case Ok(v) => Ok(ParseResult(Significant(Tokens(text, 0, 0)), LineLengths(text, |text|), v))
      case Err(e) => Err(e)
    ensures r.Ok? && r.value.value.Some? ==> Nested(r.value.value.value) && r.value.value.value.span.startIndex >= 0
  {
    var tz := new Tokenizer(text);
    var tokens: seq<Token> := [];
    var value;
    value, tokens := ParseValue(tz, tokens);
    if value.Err? {
      return Err(value.error);
    }
    while tz.current.Some?
      invariant Tracking(tz, tokens) && tz.HasStarted() && tz.basics == text && tz.all == Tokens(text, 0, 0)
      decreases tz.Remaining()
    {
      tokens := Next(tz, tokens);
    }
    tz.Finished();
    TrackingAt(tz, tokens);
    r := Ok(ParseResult(tokens, tz.lineLengths, value.value));
  }

  /** Dropping white space and comments keeps the tokens in order. */
  lemma {:induction false} SignificantOrdered(ts: seq<Token>)
    requires Ordered(ts)
    ensures Ordered(Significant(ts))
    ensures forall x <- Significant(ts) :: x in ts
    decreases |ts|
  {
    if |ts| > 0 {
      var front := ts[..|ts| - 1];
      var last := ts[|ts| - 1];
      assert Ordered(front);
      SignificantOrdered(front);
      var sf := Significant(front);
      if !IsTrivia(last) {
        var ss := sf + [last];
        forall k, l | 0 <= k < l < |ss|
          ensures ss[k].startIndex + ss[k].Length() <= ss[l].startIndex
        {
          if l == |ss| - 1 {
            assert ss[k] in front;
            var m :| 0 <= m < |front| && front[m] == ss[k];
            assert ts[m] == ss[k];
          } else {
            assert ss[k] == sf[k] && ss[l] == sf[l];
          }
        }
      }
    }
  }

  /**
   * A parse of non-empty basic tokens records its tokens in order, so the
   * binary search of `getTokenAtCharacterIndex` finds every covering token.
   */
  lemma ParsedTokensOrdered(text: seq<BasicToken>)
    requires NonEmptyTexts(text)
    ensures Ordered(Significant(Tokens(text, 0, 0)))
  {
    TokensContiguous(text, 0, 0);
    TokensNonEmpty(text, 0, 0);
    ContiguousOrdered(Tokens(text, 0, 0));
    SignificantOrdered(Tokens(text, 0, 0));
  }

  /**
   * The line lengths a parse records are valid for the position queries and
   * add up to the length of the text (`maxCharacterIndex`).
   */
  lemma ParsedLinesValid(text: seq<BasicToken>)
    requires NonEmptyTexts(text)
    ensures LinesValid(LineLengths(text, |text|))
    ensures SumOf(LineLengths(text, |text|)) == TextLength(text)
  {
    LineLengthsNonNegative(text, |text|);
    CompletedLinesPositive(text, |text|);
    LineLengthsSum(text, |text|);
    assert text[..|text|] == text;
  }
}
