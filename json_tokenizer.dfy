/**
 * The JSON tokenizer of src/pnp/JSON.ts. It groups the basic tokens of a
 * lower-level tokenizer (a separate module whose character classification is
 * not part of this model) into JSON tokens, records where each token starts
 * and keeps the length of every line read so far.
 *
 * The pure functions below say which basic tokens make up the JSON token that
 * begins at a given position; the class `Tokenizer` is the stateful reader,
 * proved to produce exactly the list `Tokens` describes.
 */
module JsonTokenizer {
  import opened Wrappers

  /** The kinds of basic token the JSON tokenizer looks at; all others are `OtherBasic`. */
  datatype BasicKind =
    | LeftCurlyBracket | RightCurlyBracket | LeftSquareBracket | RightSquareBracket
    | Comma | Colon | Dash | Plus | Period | Digits | Letters | Underscore
    | ForwardSlash | Asterisk | Backslash | SingleQuote | DoubleQuote
    | Space | Tab | CarriageReturn | NewLine | CarriageReturnNewLine
    | OtherBasic

  datatype BasicToken = BasicToken(kind: BasicKind, text: string)

  /** The kinds of JSON token (`TokenType`). */
  datatype TokenType =
    | LeftCurly | RightCurly | LeftSquare | RightSquare | CommaToken | ColonToken
    | Whitespace | QuotedString | Number | Boolean | Literal | Null | Comment | Unrecognized

  /** A JSON token: its type, start index and the basic tokens it was read from. */
  datatype Token = Token(tokenType: TokenType, startIndex: int, basics: seq<BasicToken>)
  {
    function Length(): nat { TextLength(basics) }
    function Text(): string { TextOf(basics) }
  }

  /** The combined length of basic tokens (`getCombinedLength`). */
  function TextLength(bs: seq<BasicToken>): nat
  {
    if |bs| == 0 then 0 else TextLength(bs[..|bs| - 1]) + |bs[|bs| - 1].text|
  }

  /** The combined text of basic tokens (`getCombinedText`). */
  function TextOf(bs: seq<BasicToken>): (r: string)
    ensures |r| == TextLength(bs)
  {
    if |bs| == 0 then "" else TextOf(bs[..|bs| - 1]) + bs[|bs| - 1].text
  }

  lemma {:induction false} TextLengthAppend(a: seq<BasicToken>, b: seq<BasicToken>)
    ensures TextLength(a + b) == TextLength(a) + TextLength(b)
    decreases |b|
  {
    if |b| == 0 {
      assert a + b == a;
    } else {
      assert (a + b)[..|a + b| - 1] == a + b[..|b| - 1];
      TextLengthAppend(a, b[..|b| - 1]);
    }
  }

  predicate IsLineBreak(k: BasicKind)
  {
    k == NewLine || k == CarriageReturnNewLine
  }

  /** The classes of basic token the readers accept, one at a time. */
  datatype KindClass = WhitespaceClass | LiteralClass | NotLineBreakClass | DashClass | DigitsClass | SignClass

  predicate Accepts(c: KindClass, k: BasicKind)
  {
    match c
    case WhitespaceClass => k == Space || k == Tab || k == CarriageReturn || IsLineBreak(k)
    case LiteralClass => k == Letters || k == Underscore
    case NotLineBreakClass => !IsLineBreak(k)
    case DashClass => k == Dash
    case DigitsClass => k == Digits
    case SignClass => k == Dash || k == Plus
  }

  /** The end of the run of accepted basic tokens that starts at `i`. */
  function RunEnd(bs: seq<BasicToken>, i: nat, c: KindClass): (e: nat)
    requires i <= |bs|
    ensures i <= e <= |bs|
    decreases |bs| - i
  {
    if i < |bs| && Accepts(c, bs[i].kind) then RunEnd(bs, i + 1, c) else i
  }

  /** A run holds only accepted basic tokens and stops at the first one that is not. */
  lemma {:induction false} RunEndAccepts(bs: seq<BasicToken>, i: nat, c: KindClass)
    requires i <= |bs|
    ensures var e := RunEnd(bs, i, c);
      (forall k :: i <= k < e ==> Accepts(c, bs[k].kind)) &&
      (e < |bs| ==> !Accepts(c, bs[e].kind))
    decreases |bs| - i
  {
    if i < |bs| && Accepts(c, bs[i].kind) {
      RunEndAccepts(bs, i + 1, c);
    }
  }

  /**
   * `readQuotedString` after the opening quote: the scan stops after the
   * first unescaped basic token of the opening quote's kind, or at the end of
   * input; a backslash escapes the token after it.
   */
  function QuotedEnd(bs: seq<BasicToken>, quote: BasicKind, k: nat, escaped: bool): (e: nat)
    requires k <= |bs|
    ensures k <= e <= |bs|
    decreases |bs| - k
  {
    if k == |bs| then |bs|
    else if escaped then QuotedEnd(bs, quote, k + 1, false)
    else if bs[k].kind == Backslash then QuotedEnd(bs, quote, k + 1, true)
    else if bs[k].kind == quote then k + 1
    else QuotedEnd(bs, quote, k + 1, false)
  }

  /** A quoted string closes on the first unescaped matching quote. */
  lemma {:induction false} QuotedEndCloses(bs: seq<BasicToken>, quote: BasicKind, k: nat, escaped: bool)
    requires k <= |bs|
    ensures var e := QuotedEnd(bs, quote, k, escaped);
      e == |bs| || (e > k && bs[e - 1].kind == quote)
    decreases |bs| - k
  {
    if k < |bs| {
      if escaped || bs[k].kind == Backslash || bs[k].kind != quote {
        QuotedEndCloses(bs, quote, k + 1, !escaped && bs[k].kind == Backslash);
      }
    }
  }

  predicate IsLetterE(b: BasicToken)
  {
    b.kind == Letters && (b.text == "e" || b.text == "E")
  }

  /** An optional basic token of class `c` at `i`. */
  function Optional(bs: seq<BasicToken>, i: nat, c: KindClass): (e: nat)
    requires i <= |bs|
    ensures e == i || (e == i + 1 && e <= |bs| && Accepts(c, bs[i].kind))
  {
    if i < |bs| && Accepts(c, bs[i].kind) then i + 1 else i
  }

  /** The exponent part of a number: `e`, an optional sign and optional digits. */
  function ExponentEnd(bs: seq<BasicToken>, i: nat): (e: nat)
    requires i <= |bs|
    ensures i <= e <= |bs|
  {
    if i < |bs| && IsLetterE(bs[i]) then
      var afterSign := Optional(bs, i + 1, SignClass);
      Optional(bs, afterSign, DigitsClass)
    else i
  }

  /** The fraction part of a number: a period and optional digits. */
  function FractionEnd(bs: seq<BasicToken>, i: nat): (e: nat)
    requires i <= |bs|
    ensures i <= e <= |bs|
  {
    if i < |bs| && bs[i].kind == Period then Optional(bs, i + 1, DigitsClass) else i
  }

  /** `readNumber`: [-] [digits] [. [digits]] [e [+|-] [digits]], each part optional. */
  function NumberEnd(bs: seq<BasicToken>, i: nat): (e: nat)
    requires i < |bs|
    requires bs[i].kind == Dash || bs[i].kind == Digits
    ensures i < e <= |bs|
  {
    var afterSign := Optional(bs, i, DashClass);
    var afterWhole := Optional(bs, afterSign, DigitsClass);
    ExponentEnd(bs, FractionEnd(bs, afterWhole))
  }

  /** The parts of a number token appear in the documented order. */
  lemma NumberShape(bs: seq<BasicToken>, i: nat)
    requires i < |bs| && (bs[i].kind == Dash || bs[i].kind == Digits)
    ensures var e := NumberEnd(bs, i);
      forall k :: i <= k < e ==> bs[k].kind == Dash || bs[k].kind == Digits || bs[k].kind == Period || bs[k].kind == Plus || IsLetterE(bs[k])
  {
  }

  /** A block comment after the opening slash and asterisk: up to and including the first `*` directly followed by `/`. */
  function BlockCommentEnd(bs: seq<BasicToken>, k: nat): (e: nat)
    requires k <= |bs|
    ensures k <= e <= |bs|
    decreases |bs| - k
  {
    if k == |bs| then |bs|
    else if bs[k].kind == Asterisk && k + 1 < |bs| && bs[k + 1].kind == ForwardSlash then k + 2
    else BlockCommentEnd(bs, k + 1)
  }

  /**
   * The JSON token that starts at basic token `i` (the `switch` of
   * `Tokenizer.moveNext`): its type and the index just after its last basic token.
   */
  function NextToken(bs: seq<BasicToken>, i: nat): (r: (TokenType, nat))
    requires i < |bs|
    ensures i < r.1 <= |bs|
  {
    match bs[i].kind
    case Dash | Digits => (Number, NumberEnd(bs, i))
    case ForwardSlash =>
      if i + 1 == |bs| then (Literal, i + 1)
      else if bs[i + 1].kind == ForwardSlash then (Comment, RunEnd(bs, i + 2, NotLineBreakClass))
      else if bs[i + 1].kind == Asterisk then (Comment, BlockCommentEnd(bs, i + 2))
      else (Literal, i + 1)
    case Space | Tab | CarriageReturn | NewLine | CarriageReturnNewLine =>
      (Whitespace, RunEnd(bs, i + 1, WhitespaceClass))
    case SingleQuote | DoubleQuote => (QuotedString, QuotedEnd(bs, bs[i].kind, i + 1, false))
    case Letters =>
      if bs[i].text == "true" || bs[i].text == "false" then (Boolean, i + 1)
      else if bs[i].text == "null" then (Null, i + 1)
      else (Literal, RunEnd(bs, i + 1, LiteralClass))
    case _ => (SingleTokenType(bs[i].kind), i + 1)
  }

  /** The token type of a basic token that is a JSON token by itself. */
  function SingleTokenType(k: BasicKind): TokenType
  {
    match k
    case LeftCurlyBracket => LeftCurly
    case RightCurlyBracket => RightCurly
    case LeftSquareBracket => LeftSquare
    case RightSquareBracket => RightSquare
    case Comma => CommaToken
    case Colon => ColonToken
    case _ => Unrecognized
  }

  /** All JSON tokens from basic token `i` on, the first starting at character `start`. */
  function Tokens(bs: seq<BasicToken>, i: nat, start: int): seq<Token>
    requires i <= |bs|
    decreases |bs| - i
  {
    if i == |bs| then []
    else
      var (t, e) := NextToken(bs, i);
      [Token(t, start, bs[i..e])] + Tokens(bs, e, start + TextLength(bs[i..e]))
  }

  /** The first token from `i` on, followed by the tokens after it. */
  lemma TokensStep(bs: seq<BasicToken>, i: nat, start: int, t: TokenType, e: nat)
    requires i < |bs| && NextToken(bs, i) == (t, e)
    ensures Tokens(bs, i, start) == [Token(t, start, bs[i..e])] + Tokens(bs, e, start + TextLength(bs[i..e]))
  {
  }

  /** The first token from `i` on, as a value: it starts at `start` and holds the basic tokens up to `e`. */
  lemma TokensHead(bs: seq<BasicToken>, i: nat, start: int) returns (e: nat, first: Token)
    requires i < |bs|
    ensures i < e <= |bs| && first.startIndex == start && first.basics == bs[i..e]
    ensures Tokens(bs, i, start) == [first] + Tokens(bs, e, start + first.Length())
  {
    var t;
    t, e := NextToken(bs, i).0, NextToken(bs, i).1;
    first := Token(t, start, bs[i..e]);
    TokensStep(bs, i, start, t, e);
  }

  /**
   * The tokens are contiguous: the first starts at `start` and each next one
   * starts where the previous one ends.
   */
  lemma {:induction false} TokensContiguous(bs: seq<BasicToken>, i: nat, start: int)
    requires i <= |bs|
    ensures StartsAt(Tokens(bs, i, start), start) && Contiguous(Tokens(bs, i, start))
    decreases |bs| - i
  {
    if i < |bs| {
      var e, first := TokensHead(bs, i, start);
      TokensContiguous(bs, e, start + first.Length());
      ContiguousCons(first, Tokens(bs, e, start + first.Length()));
    }
  }

  /** The first token, if any, starts at character `x`. */
  predicate StartsAt(ts: seq<Token>, x: int)
  {
    |ts| > 0 ==> ts[0].startIndex == x
  }

  /** Each token starts where the one before it ends. */
  predicate Contiguous(ts: seq<Token>)
  {
    forall j :: 0 <= j < |ts| - 1 ==> ts[j + 1].startIndex == ts[j].startIndex + ts[j].Length()
  }

  lemma ContiguousCons(first: Token, rest: seq<Token>)
    requires Contiguous(rest) && StartsAt(rest, first.startIndex + first.Length())
    ensures StartsAt([first] + rest, first.startIndex) && Contiguous([first] + rest)
  {
    var ts := [first] + rest;
    forall j | 0 <= j < |ts| - 1
      ensures ts[j + 1].startIndex == ts[j].startIndex + ts[j].Length()
    {
      if j > 0 {
        assert ts[j] == rest[j - 1] && ts[j + 1] == rest[j];
      }
    }
  }

  /** Every token holds at least one character. */
  predicate NonEmptyTokens(ts: seq<Token>)
  {
    forall j :: 0 <= j < |ts| ==> ts[j].Length() > 0
  }

  /** The tokens read from non-empty basic tokens are non-empty. */
  lemma {:induction false} TokensNonEmpty(bs: seq<BasicToken>, i: nat, start: int)
    requires i <= |bs| && NonEmptyTexts(bs)
    ensures NonEmptyTokens(Tokens(bs, i, start))
    decreases |bs| - i
  {
    if i < |bs| {
      var e, first := TokensHead(bs, i, start);
      TokensNonEmpty(bs, e, start + first.Length());
      TextLengthPositive(bs, i, e);
      NonEmptyCons(first, Tokens(bs, e, start + first.Length()));
    }
  }

  lemma NonEmptyCons(first: Token, rest: seq<Token>)
    requires NonEmptyTokens(rest) && first.Length() > 0
    ensures NonEmptyTokens([first] + rest)
  {
    var ts := [first] + rest;
    forall j | 0 <= j < |ts| ensures ts[j].Length() > 0 {
      if j > 0 {
        assert ts[j] == rest[j - 1];
      }
    }
  }

  /** The last token, if any, ends at character `x`. */
  predicate EndsAt(ts: seq<Token>, x: int)
  {
    |ts| > 0 ==> ts[|ts| - 1].startIndex + ts[|ts| - 1].Length() == x
  }

  lemma EndsAtCons(first: Token, rest: seq<Token>, x: int)
    requires EndsAt(rest, x) && (|rest| == 0 ==> first.startIndex + first.Length() == x)
    ensures EndsAt([first] + rest, x)
  {
    var ts := [first] + rest;
    if |rest| > 0 {
      assert ts[|ts| - 1] == rest[|rest| - 1];
    }
  }

  /** The last token ends at `start` plus the length of the text from `i` on. */
  lemma {:induction false} TokensEnd(bs: seq<BasicToken>, i: nat, start: int)
    requires i <= |bs|
    ensures EndsAt(Tokens(bs, i, start), start + TextLength(bs[i..]))
    decreases |bs| - i
  {
    if i < |bs| {
      var e, first := TokensHead(bs, i, start);
      var s := start + first.Length();
      TokensEnd(bs, e, s);
      TokensEmpty(bs, e, s);
      TextLengthSplit(bs, i, e);
      assert s + TextLength(bs[e..]) == start + TextLength(bs[i..]);
      EndsAtCons(first, Tokens(bs, e, s), start + TextLength(bs[i..]));
    }
  }

  /** The length of a suffix is the length of its first part plus that of the rest. */
  lemma TextLengthSplit(bs: seq<BasicToken>, i: nat, e: nat)
    requires i <= e <= |bs|
    ensures TextLength(bs[i..]) == TextLength(bs[i..e]) + TextLength(bs[e..])
    ensures e == |bs| ==> TextLength(bs[e..]) == 0
  {
    assert bs[i..] == bs[i..e] + bs[e..];
    TextLengthAppend(bs[i..e], bs[e..]);
  }

  /** There are no tokens exactly when no basic tokens are left. */
  lemma TokensEmpty(bs: seq<BasicToken>, i: nat, start: int)
    requires i <= |bs|
    ensures |Tokens(bs, i, start)| == 0 <==> i == |bs|
  {
  }

  /**
   * The lengths of the lines completed by a line break among the first `n`
   * basic tokens; the break belongs to the line it ends.
   */
  function CompletedLines(bs: seq<BasicToken>, n: nat): seq<int>
    requires n <= |bs|
  {
    if n == 0 then []
    else if IsLineBreak(bs[n - 1].kind) then CompletedLines(bs, n - 1) + [CurrentLine(bs, n - 1) + |bs[n - 1].text|]
    else CompletedLines(bs, n - 1)
  }

  /** The length of the line still open after the first `n` basic tokens. */
  function CurrentLine(bs: seq<BasicToken>, n: nat): int
    requires n <= |bs|
  {
    if n == 0 then 0
    else if IsLineBreak(bs[n - 1].kind) then 0
    else CurrentLine(bs, n - 1) + |bs[n - 1].text|
  }

  /** The line lengths after reading the first `n` basic tokens. */
  function LineLengths(bs: seq<BasicToken>, n: nat): (r: seq<int>)
    requires n <= |bs|
    ensures |r| >= 1
  {
    CompletedLines(bs, n) + [CurrentLine(bs, n)]
  }

  function SumOf(xs: seq<int>): int
  {
    if |xs| == 0 then 0 else SumOf(xs[..|xs| - 1]) + xs[|xs| - 1]
  }

  lemma {:induction false} SumOfAppend(a: seq<int>, b: seq<int>)
    ensures SumOf(a + b) == SumOf(a) + SumOf(b)
    decreases |b|
  {
    if |b| == 0 {
      assert a + b == a;
    } else {
      assert (a + b)[..|a + b| - 1] == a + b[..|b| - 1];
      SumOfAppend(a, b[..|b| - 1]);
    }
  }

  function LineBreakCount(bs: seq<BasicToken>, n: nat): nat
    requires n <= |bs|
  {
    if n == 0 then 0 else LineBreakCount(bs, n - 1) + (if IsLineBreak(bs[n - 1].kind) then 1 else 0)
  }

  /** The line lengths add up to the length of the text read. */
  lemma {:induction false} LineLengthsSum(bs: seq<BasicToken>, n: nat)
    requires n <= |bs|
    ensures SumOf(LineLengths(bs, n)) == TextLength(bs[..n])
  {
    if n > 0 {
      LineLengthsSum(bs, n - 1);
      var prefix := bs[..n];
      assert prefix[..n - 1] == bs[..n - 1];
      assert TextLength(prefix) == TextLength(bs[..n - 1]) + |bs[n - 1].text|;
      var done := CompletedLines(bs, n - 1);
      var open := CurrentLine(bs, n - 1);
      var len := |bs[n - 1].text|;
      SumOfAppend(done, [open]);
      SumOfAppend(done, [open + len]);
      assert SumOf([open]) == open && SumOf([open + len]) == open + len;
      if IsLineBreak(bs[n - 1].kind) {
        assert LineLengths(bs, n) == (done + [open + len]) + [0];
        SumOfAppend(done + [open + len], [0]);
      } else {
        assert LineLengths(bs, n) == done + [open + len];
      }
    }
  }

  /** There is one line per line break, plus one. */
  lemma {:induction false} LineLengthsCount(bs: seq<BasicToken>, n: nat)
    requires n <= |bs|
    ensures |LineLengths(bs, n)| == LineBreakCount(bs, n) + 1
  {
    if n > 0 {
      LineLengthsCount(bs, n - 1);
    }
  }

  /** No line has a negative length. */
  lemma {:induction false} LineLengthsNonNegative(bs: seq<BasicToken>, n: nat)
    requires n <= |bs|
    ensures CurrentLine(bs, n) >= 0
    ensures forall j :: 0 <= j < |CompletedLines(bs, n)| ==> CompletedLines(bs, n)[j] >= 0
    ensures forall j :: 0 <= j < |LineLengths(bs, n)| ==> LineLengths(bs, n)[j] >= 0
  {
    if n > 0 {
      LineLengthsNonNegative(bs, n - 1);
    }
  }

  /** Every basic token holds at least one character. */
  predicate NonEmptyTexts(bs: seq<BasicToken>)
  {
    forall k :: 0 <= k < |bs| ==> |bs[k].text| > 0
  }

  /** A non-empty run of non-empty basic tokens has a positive length. */
  lemma {:induction false} TextLengthPositive(bs: seq<BasicToken>, i: nat, e: nat)
    requires i < e <= |bs| && NonEmptyTexts(bs)
    ensures TextLength(bs[i..e]) > 0
  {
    assert bs[i..e][e - i - 1] == bs[e - 1];
  }

  /** Every line completed by a non-empty line break is at least one long. */
  lemma {:induction false} CompletedLinesPositive(bs: seq<BasicToken>, n: nat)
    requires n <= |bs| && NonEmptyTexts(bs)
    ensures forall j :: 0 <= j < |CompletedLines(bs, n)| ==> CompletedLines(bs, n)[j] >= 1
  {
    if n > 0 {
      CompletedLinesPositive(bs, n - 1);
      LineLengthsNonNegative(bs, n - 1);
    }
  }

  /** The slice from `i` to `k` is the slice up to `j` followed by the slice from `j`. */
  lemma SliceSplit(bs: seq<BasicToken>, i: nat, j: nat, k: nat)
    requires i <= j <= k <= |bs|
    ensures bs[i..k] == bs[i..j] + bs[j..k]
  {
  }

  /** Growing a slice by one basic token. */
  lemma SliceGrow(bs: seq<BasicToken>, i: nat, e: nat)
    requires i <= e < |bs|
    ensures bs[i..e] + [bs[e]] == bs[i..e + 1]
  {
    assert bs[e..e + 1] == [bs[e]];
    SliceSplit(bs, i, e, e + 1);
  }

  /*
   * The readers. In the source each consumes the inner basic-token iterator
   * it is given; here each takes the index of the basic token the iterator is
   * on and returns the tokens it read and the index it stopped at. The
   * tokenizer then moves its inner iterator to that index, which updates the
   * line lengths exactly as the interleaved moves of the source do.
   */

  /** Reads the run of basic tokens of class `c` from `i` on. */
  method ReadRun(bs: seq<BasicToken>, i: nat, c: KindClass) returns (toks: seq<BasicToken>, e: nat)
    requires i <= |bs|
    ensures e == RunEnd(bs, i, c) && toks == bs[i..e]
  {
    e := i;
    toks := [];
    while e < |bs| && Accepts(c, bs[e].kind)
      invariant i <= e <= |bs| && toks == bs[i..e]
      invariant RunEnd(bs, i, c) == RunEnd(bs, e, c)
      decreases |bs| - e
    {
      SliceGrow(bs, i, e);
      toks := toks + [bs[e]];
      e := e + 1;
    }
  }

  /** `readQuotedString`: the basic token at `i` is the opening quote. */
  method ReadQuotedString(bs: seq<BasicToken>, i: nat) returns (toks: seq<BasicToken>, e: nat)
    requires i < |bs|
    ensures e == QuotedEnd(bs, bs[i].kind, i + 1, false) && toks == bs[i..e]
  {
    var startQuote := bs[i];
    toks := [startQuote];
    e := i + 1;
    var escaped := false;
    var foundEnd := false;
    while !foundEnd && e < |bs|
      invariant i < e <= |bs| && toks == bs[i..e]
      invariant foundEnd ==> e == QuotedEnd(bs, startQuote.kind, i + 1, false)
      invariant !foundEnd ==> QuotedEnd(bs, startQuote.kind, i + 1, false) == QuotedEnd(bs, startQuote.kind, e, escaped)
      decreases |bs| - e
    {
      var b := bs[e];
      SliceGrow(bs, i, e);
      toks := toks + [b];
      if escaped {
        escaped := false;
      } else if b.kind == Backslash {
        escaped := true;
      } else if b.kind == startQuote.kind {
        foundEnd := true;
      }
      e := e + 1;
    }
  }

  /** Moves past the basic token at `i` if it is of class `c`. */
  method ReadOptional(bs: seq<BasicToken>, i: nat, c: KindClass) returns (toks: seq<BasicToken>, e: nat)
    requires i <= |bs|
    ensures e == Optional(bs, i, c) && toks == bs[i..e]
  {
    if i < |bs| && Accepts(c, bs[i].kind) {
      toks, e := [bs[i]], i + 1;
    } else {
      toks, e := [], i;
    }
  }

  /** `readNumber`: the basic token at `i` is a dash or digits. */
  method ReadNumber(bs: seq<BasicToken>, i: nat) returns (toks: seq<BasicToken>, e: nat)
    requires i < |bs| && (bs[i].kind == Dash || bs[i].kind == Digits)
    ensures e == NumberEnd(bs, i) && toks == bs[i..e]
  {
    var sign, e1 := ReadOptional(bs, i, DashClass);
    var whole, e2 := ReadOptional(bs, e1, DigitsClass);
    var fraction, e3 := ReadFraction(bs, e2);
    var exponent, e4 := ReadExponent(bs, e3);
    toks, e := sign + whole + fraction + exponent, e4;
    SliceSplit(bs, i, e1, e2);
    SliceSplit(bs, i, e2, e3);
    SliceSplit(bs, i, e3, e4);
  }

  /** The fraction part of `readNumber`. */
  method ReadFraction(bs: seq<BasicToken>, i: nat) returns (toks: seq<BasicToken>, e: nat)
    requires i <= |bs|
    ensures e == FractionEnd(bs, i) && toks == bs[i..e]
  {
    toks, e := [], i;
    if i < |bs| && bs[i].kind == Period {
      var digits, e1 := ReadOptional(bs, i + 1, DigitsClass);
      toks, e := [bs[i]] + digits, e1;
      assert bs[i..i + 1] == [bs[i]];
      SliceSplit(bs, i, i + 1, e1);
    }
  }

  /** The exponent part of `readNumber`. */
  method ReadExponent(bs: seq<BasicToken>, i: nat) returns (toks: seq<BasicToken>, e: nat)
    requires i <= |bs|
    ensures e == ExponentEnd(bs, i) && toks == bs[i..e]
  {
    toks, e := [], i;
    if i < |bs| && IsLetterE(bs[i]) {
      var sign, e1 := ReadOptional(bs, i + 1, SignClass);
      var digits, e2 := ReadOptional(bs, e1, DigitsClass);
      toks, e := [bs[i]] + sign + digits, e2;
      assert bs[i..i + 1] == [bs[i]];
      SliceSplit(bs, i, i + 1, e1);
      SliceSplit(bs, i, e1, e2);
    }
  }

  /** The block comment loop, from the basic token after the opening slash and asterisk. */
  method ReadBlockCommentBody(bs: seq<BasicToken>, i: nat) returns (toks: seq<BasicToken>, e: nat)
    requires i <= |bs|
    ensures e == BlockCommentEnd(bs, i) && toks == bs[i..e]
  {
    toks, e := [], i;
    var closed := false;
    while !closed && e < |bs|
      invariant i <= e <= |bs| && toks == bs[i..e]
      invariant closed ==> e == BlockCommentEnd(bs, i)
      invariant !closed ==> BlockCommentEnd(bs, i) == BlockCommentEnd(bs, e)
      decreases |bs| - e, if closed then 0 else 1
    {
      var b := bs[e];
      SliceGrow(bs, i, e);
      toks := toks + [b];
      e := e + 1;
      if b.kind == Asterisk && e < |bs| && bs[e].kind == ForwardSlash {
        SliceGrow(bs, i, e);
        toks := toks + [bs[e]];
        e := e + 1;
        closed := true;
      }
    }
  }

  /** A forward slash starts a line comment, a block comment, or is a literal by itself. */
  method ReadSlash(bs: seq<BasicToken>, i: nat) returns (t: TokenType, toks: seq<BasicToken>, e: nat)
    requires i < |bs| && bs[i].kind == ForwardSlash
    ensures (t, e) == NextToken(bs, i) && toks == bs[i..e]
  {
    if i + 1 == |bs| {
      t, toks, e := Literal, [bs[i]], i + 1;
    } else if bs[i + 1].kind == ForwardSlash {
      var rest, e1 := ReadRun(bs, i + 2, NotLineBreakClass);
      t, toks, e := Comment, [bs[i], bs[i + 1]] + rest, e1;
      assert bs[i..i + 2] == [bs[i], bs[i + 1]];
      SliceSplit(bs, i, i + 2, e);
    } else if bs[i + 1].kind == Asterisk {
      var rest, e1 := ReadBlockCommentBody(bs, i + 2);
      t, toks, e := Comment, [bs[i], bs[i + 1]] + rest, e1;
      assert bs[i..i + 2] == [bs[i], bs[i + 1]];
      SliceSplit(bs, i, i + 2, e);
    } else {
      t, toks, e := Literal, [bs[i]], i + 1;
    }
  }

  /** `true`, `false` and `null` are tokens of their own; other letters start a literal. */
  method ReadLetters(bs: seq<BasicToken>, i: nat) returns (t: TokenType, toks: seq<BasicToken>, e: nat)
    requires i < |bs| && bs[i].kind == Letters
    ensures (t, e) == NextToken(bs, i) && toks == bs[i..e]
  {
    var b := bs[i];
    if b.text == "true" || b.text == "false" {
      t, toks, e := Boolean, [b], i + 1;
    } else if b.text == "null" {
      t, toks, e := Null, [b], i + 1;
    } else {
      var rest, e1 := ReadRun(bs, i + 1, LiteralClass);
      t, toks, e := Literal, [b] + rest, e1;
      assert bs[i..i + 1] == [bs[i]];
      SliceSplit(bs, i, i + 1, e1);
    }
  }

  /** `readWhitespace`: the basic token at `i` and the white space run after it. */
  method ReadWhitespace(bs: seq<BasicToken>, i: nat) returns (toks: seq<BasicToken>, e: nat)
    requires i < |bs|
    ensures e == RunEnd(bs, i + 1, WhitespaceClass) && toks == bs[i..e]
  {
    var rest, e1 := ReadRun(bs, i + 1, WhitespaceClass);
    toks, e := [bs[i]] + rest, e1;
    assert bs[i..i + 1] == [bs[i]];
    SliceSplit(bs, i, i + 1, e1);
  }

  /** The `switch` of `moveNext`: reads the JSON token that starts at basic token `i`. */
  method ReadToken(bs: seq<BasicToken>, i: nat) returns (t: TokenType, toks: seq<BasicToken>, e: nat)
    requires i < |bs|
    ensures (t, e) == NextToken(bs, i) && toks == bs[i..e]
  {
    var b := bs[i];
    match b.kind {
      case Dash | Digits =>
        t := Number;
        toks, e := ReadNumber(bs, i);
      case ForwardSlash =>
        t, toks, e := ReadSlash(bs, i);
      case Space | Tab | CarriageReturn | NewLine | CarriageReturnNewLine =>
        t := Whitespace;
        toks, e := ReadWhitespace(bs, i);
      case SingleQuote | DoubleQuote =>
        t := QuotedString;
        toks, e := ReadQuotedString(bs, i);
      case Letters =>
        t, toks, e := ReadLetters(bs, i);
      case _ =>
        t, toks, e := SingleTokenType(b.kind), [b], i + 1;
    }
  }

  /**
   * `Tokenizer`: reads JSON tokens from a list of basic tokens. `pos` counts
   * the basic tokens the inner tokenizer has moved to; its current basic token
   * is `basics[pos - 1]` while `0 < pos <= |basics|`.
   */
  class Tokenizer {
    const basics: seq<BasicToken>
    ghost const firstStart: int
    /** Every token of the input, as `Tokens` describes them. */
    ghost const all: seq<Token>
    var pos: nat
    var current: Option<Token>
    var currentTokenStartIndex: int
    var lineLengths: seq<int>
    /** The tokens produced so far, the current one last. */
    ghost var produced: seq<Token>

    /** The basic tokens that have been the inner tokenizer's current token. */
    function Seen(): nat
      reads this
    {
      if pos <= |basics| then pos else |basics|
    }

    /** The basic tokens already grouped into JSON tokens. */
    function Consumed(): nat
      reads this
    {
      if pos == 0 then 0 else pos - 1
    }

    function NextStart(): int
      reads this
    {
      currentTokenStartIndex + (if current.Some? then current.value.Length() else 0)
    }

    ghost predicate LinesValid()
      reads this
    {
      pos <= |basics| + 1 && lineLengths == LineLengths(basics, Seen())
    }

    ghost predicate Valid()
      reads this
    {
      LinesValid() &&
      (current.Some? ==> |produced| > 0 && current.value == produced[|produced| - 1] &&
                         current.value.startIndex == currentTokenStartIndex) &&
      (current.None? ==> pos == 0 || pos == |basics| + 1) &&
      (pos == 0 ==> produced == [] && current.None? && currentTokenStartIndex == firstStart) &&
      produced + Tokens(basics, Consumed(), NextStart()) == all
    }

    /** The remaining work, which `moveNext` decreases while it returns true. */
    function Remaining(): nat
      reads this
      requires pos <= |basics| + 1
    {
      |basics| + 1 - pos + (if current.Some? then 1 else 0)
    }

    constructor (text: seq<BasicToken>, startIndex: int := 0)
      ensures Valid() && basics == text && firstStart == startIndex && all == Tokens(text, 0, startIndex)
      ensures pos == 0 && current.None? && lineLengths == [0] && produced == []
    {
      basics := text;
      firstStart := startIndex;
      all := Tokens(text, 0, startIndex);
      pos := 0;
      current := None;
      currentTokenStartIndex := startIndex;
      lineLengths := [0];
      produced := [];
    }

    /** Once the tokens are used up, every token has been produced and every line measured. */
    lemma Finished()
      requires Valid() && HasStarted() && current.None?
      ensures produced == all && lineLengths == LineLengths(basics, |basics|)
    {
      assert Tokens(basics, Consumed(), NextStart()) == [];
      assert produced + [] == produced;
    }

    predicate HasStarted()
      reads this
    {
      pos > 0
    }

    predicate HasCurrentBasic()
      reads this
    {
      0 < pos <= |basics|
    }

    /** `moveNextBasicToken`: advance the inner tokenizer and account for the new basic token's line. */
    method MoveNextBasicToken() returns (r: bool)
      requires LinesValid()
      modifies this`pos, this`lineLengths
      ensures LinesValid()
      ensures pos == if old(pos) <= |basics| then old(pos) + 1 else old(pos)
      ensures r == HasCurrentBasic()
    {
      if pos <= |basics| {
        pos := pos + 1;
      }
      if pos <= |basics| {
        var t := basics[pos - 1];
        lineLengths := lineLengths[..|lineLengths| - 1] + [lineLengths[|lineLengths| - 1] + |t.text|];
        if IsLineBreak(t.kind) {
          lineLengths := lineLengths + [0];
        }
      }
      r := pos <= |basics|;
    }

    /** Moves the inner tokenizer on until the basic tokens before `e` are consumed. */
    method AdvanceTo(e: nat)
      requires LinesValid() && HasStarted() && Consumed() <= e <= |basics|
      modifies this`pos, this`lineLengths
      ensures LinesValid() && HasStarted() && Consumed() == e
    {
      while pos < e + 1
        invariant LinesValid() && HasStarted() && pos <= e + 1
        decreases e + 1 - pos
      {
        var _ := MoveNextBasicToken();
      }
    }

    /** Reads the token that starts at the current basic token and moves past it. */
    method ReadAndAdvance() returns (token: Token)
      requires LinesValid() && HasCurrentBasic()
      modifies this`pos, this`lineLengths
      ensures LinesValid() && HasStarted() && pos > old(pos)
      ensures token.startIndex == currentTokenStartIndex
      ensures Tokens(basics, old(Consumed()), token.startIndex) ==
              [token] + Tokens(basics, Consumed(), token.startIndex + token.Length())
    {
      var c0 := pos - 1;
      assert c0 == Consumed();
      var t, toks, e := ReadToken(basics, c0);
      AdvanceTo(e);
      token := Token(t, currentTokenStartIndex, toks);
      TokensStep(basics, c0, token.startIndex, t, e);
      assert token.Length() == TextLength(basics[c0..e]);
    }

    /** Makes `token`, just read, the current token. */
    method Record(token: Token)
      requires LinesValid() && HasStarted() && current.None?
      requires token.startIndex == currentTokenStartIndex
      requires (produced + [token]) + Tokens(basics, Consumed(), token.startIndex + token.Length()) == all
      modifies this`current, this`produced
      ensures Valid()
      ensures current == Some(token) && produced == old(produced) + [token]
    {
      current := Some(token);
      produced := produced + [token];
      assert NextStart() == token.startIndex + token.Length();
    }

    /** The part of `moveNext` after the current token is cleared. */
    method ReadCurrentToken()
      requires LinesValid() && HasStarted() && current.None?
      requires produced + Tokens(basics, Consumed(), currentTokenStartIndex) == all
      modifies this
      ensures Valid()
      ensures currentTokenStartIndex == old(currentTokenStartIndex)
      ensures current.Some? == old(HasCurrentBasic())
      ensures current.Some? ==> produced == old(produced) + [current.value] && pos > old(pos)
      ensures current.None? ==> produced == old(produced) && pos == old(pos) == |basics| + 1
    {
      if HasCurrentBasic() {
        ghost var c0 := Consumed();
        var token := ReadAndAdvance();
        assert produced + Tokens(basics, c0, token.startIndex) == all;
        assert (produced + [token]) + Tokens(basics, Consumed(), token.startIndex + token.Length()) == all;
        Record(token);
      }
    }

    /**
     * `moveNext`: the next token starts where the current one ends and is the
     * next element of `Tokens`; the result says whether there is one.
     */
    method MoveNext() returns (r: bool)
      requires Valid()
      modifies this
      ensures Valid()
      ensures r == current.Some?
      ensures old(HasStarted()) && old(current).Some? ==>
        currentTokenStartIndex == old(currentTokenStartIndex) + old(current).value.Length()
      ensures old(current).None? ==> currentTokenStartIndex == old(currentTokenStartIndex)
      ensures current.Some? ==> produced == old(produced) + [current.value]
      ensures current.None? ==> produced == old(produced) && pos == |basics| + 1
      ensures old(current).Some? || old(pos) == 0 ==> Remaining() < old(Remaining())
      ensures Remaining() <= old(Remaining())
    {
      if !HasStarted() {
        var _ := MoveNextBasicToken();
      } else if current.Some? {
        currentTokenStartIndex := currentTokenStartIndex + current.value.Length();
      }
      current := None;
      assert currentTokenStartIndex == old(NextStart());
      ReadCurrentToken();
      r := current.Some?;
    }
  }

  /** Kinds of token the parser skips. */
  predicate IsTrivia(t: Token)
  {
    t.tokenType == Whitespace || t.tokenType == Comment
  }

  /** The tokens that are neither white space nor comments, in order. */
  function Significant(ts: seq<Token>): (r: seq<Token>)
    ensures |r| <= |ts|
    ensures forall j :: 0 <= j < |r| ==> !IsTrivia(r[j])
  {
    if |ts| == 0 then []
    else Significant(ts[..|ts| - 1]) + (if IsTrivia(ts[|ts| - 1]) then [] else [ts[|ts| - 1]])
  }

  lemma {:induction false} SignificantAppend(a: seq<Token>, b: seq<Token>)
    ensures Significant(a + b) == Significant(a) + Significant(b)
    decreases |b|
  {
    if |b| == 0 {
      assert a + b == a;
    } else {
      assert (a + b)[..|a + b| - 1] == a + b[..|b| - 1];
      SignificantAppend(a, b[..|b| - 1]);
    }
  }
}
