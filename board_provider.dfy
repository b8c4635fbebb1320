/**
 * `BoardProvider.find` of src/boardProvider.ts: the first board of the
 * board list whose properties agree with every property of the option,
 * where vendor and product ids are compared as hexadecimal numbers.
 */
module BoardProvider {
  import opened Wrappers
  import opened Strings

  /** A JSON property value of a board or an option. */
  datatype Prop = Num(n: int) | Str(s: string) | Undefined

  /** A board of the board list: its own properties. */
  type Board = map<string, Prop>

  /**
   * An option: its own properties in `Object.keys` order, each key once.
   */
  type BoardOption = seq<(string, Prop)>

  /** The value of one hexadecimal digit, if `c` is one. */
  function HexDigit(c: char): Option<nat>
  {
    if '0' <= c <= '9' then Some(c as int - '0' as int)
    else if 'a' <= c <= 'f' then Some(c as int - 'a' as int + 10)
    else if 'A' <= c <= 'F' then Some(c as int - 'A' as int + 10)
    else None
  }

  /** The value of a string of hexadecimal digits; `None` for any other string. */
  function HexValue(digits: string): Option<nat>
    decreases |digits|
  {
    if |digits| == 0 then None
    else
      var d := HexDigit(digits[|digits| - 1]);
      if d.None? then None
      else if |digits| == 1 then d
      else
        match HexValue(digits[..|digits| - 1])
        case None => None
        case Some(v) => Some(16 * v + d.value)
  }

  /**
   * `Number(\`0x${value}\`)`: the number the template string denotes, or
   * `None` for NaN. `Number` drops white space around the text, which
   * after the "0x" in front means trailing white space only; leading white
   * space sits between "0x" and the digits and gives NaN. A number is
   * written in decimal first, so its decimal digits are then read as
   * hexadecimal ones.
   */
  function HexNumber(value: Prop): Option<int>
  {
    match value
    case Str(s) => HexValue(TrimEnd(s))
    case Num(n) => if n >= 0 then HexValue(NatToString(n)) else None
    case Undefined => None
  }

  /** The option's id: a number is taken as it is, anything else is read as hexadecimal. */
  function OptionId(value: Prop): Option<int>
  {
    if value.Num? then Some(value.n) else HexNumber(value)
  }

  /** `optionId !== boardId` is false: both are numbers, and equal (NaN equals nothing). */
  predicate SameNumber(a: Option<int>, b: Option<int>)
  {
    a.Some? && b.Some? && a.value == b.value
  }

  /** `!==` on two property values. */
  predicate SameValue(a: Prop, b: Prop)
  {
    a == b
  }

  predicate IsIdKey(key: string)
  {
    key == "vendorId" || key == "productId"
  }

  /**
   * One option property as the source checks it: the board must have the
   * key; an id is compared with an id computed from the option value a
   * second time, so the board's value is never read.
   */
  predicate KeyMatchesAsWritten(board: Board, key: string, optionValue: Prop)
  {
    key in board &&
    if IsIdKey(key) then SameNumber(OptionId(optionValue), HexNumber(optionValue))
    else SameValue(optionValue, board[key])
  }

  /** One option property with the id computed from the board's value. */
  predicate KeyMatches(board: Board, key: string, optionValue: Prop)
  {
    key in board &&
    if IsIdKey(key) then SameNumber(OptionId(optionValue), HexNumber(board[key]))
    else SameValue(optionValue, board[key])
  }

  /** The board agrees with every property of the option. */
  predicate Matches(board: Board, option: BoardOption)
  {
    forall i :: 0 <= i < |option| ==> KeyMatches(board, option[i].0, option[i].1)
  }

  /**
   * The callback given to `list.find`: walks the option's keys and stops
   * at the first one that does not match. Every key comes from the option
   * itself, so the "no such option property" branch is never taken.
   */
  method BoardMatches(board: Board, option: BoardOption) returns (r: bool)
    ensures r <==> Matches(board, option)
  {
    for i := 0 to |option|
      invariant forall k :: 0 <= k < i ==> KeyMatches(board, option[k].0, option[k].1)
    {
      var (key, value) := option[i];
      if key !in board {
        return false;
      }
      if IsIdKey(key) {
        if !SameNumber(OptionId(value), HexNumber(board[key])) {
          return false;
        }
      } else if !SameValue(value, board[key]) {
        return false;
      }
    }
    r := true;
  }

  /** `find`: the index of the first matching board, if any. */
  method Find(list: seq<Board>, option: BoardOption) returns (r: Option<nat>)
    ensures r.Some? ==> r.value < |list| && Matches(list[r.value], option)
    ensures r.Some? ==> forall k :: 0 <= k < r.value ==> !Matches(list[k], option)
    ensures r.None? ==> forall k :: 0 <= k < |list| ==> !Matches(list[k], option)
  {
    for i := 0 to |list|
      invariant forall k :: 0 <= k < i ==> !Matches(list[k], option)
    {
      var m := BoardMatches(list[i], option);
      if m {
        return Some(i);
      }
    }
    r := None;
  }

  /** An option with no properties matches the first board. */
  lemma EmptyOptionMatchesAll(board: Board)
    ensures Matches(board, [])
  {
  }

  /**
   * As written, whether an id key matches does not depend on the board's
   * value at all: any two boards that have the key answer alike.
   */
  lemma KeyMatchesAsWrittenIgnoresBoard(b1: Board, b2: Board, key: string, value: Prop)
    requires IsIdKey(key) && key in b1 && key in b2
    ensures KeyMatchesAsWritten(b1, key, value) == KeyMatchesAsWritten(b2, key, value)
  {
  }

  /**
   * The input that shows it: option vendor id "1234" matches a board whose
   * vendor id is "0483" as written; the corrected rule rejects it and
   * accepts the board with "1234".
   */
  lemma KeyMatchesAsWrittenWrongBoard()
    ensures KeyMatchesAsWritten(map["vendorId" := Str("0483")], "vendorId", Str("1234"))
    ensures !KeyMatches(map["vendorId" := Str("0483")], "vendorId", Str("1234"))
    ensures KeyMatches(map["vendorId" := Str("1234")], "vendorId", Str("1234"))
  {
    assert HexValue("1234") == Some(0x1234) by {
      assert "1234"[..3] == "123" && "123"[..2] == "12" && "12"[..1] == "1";
    }
    assert HexValue("0483") == Some(0x483) by {
      assert "0483"[..3] == "048" && "048"[..2] == "04" && "04"[..1] == "0";
    }
  }

  /**
   * The corrected rule compares numerically: a numeric option id matches a
   * board id written as its hexadecimal digits.
   */
  lemma KeyMatchesNumericId()
    ensures KeyMatches(map["productId" := Str("483")], "productId", Num(0x483))
  {
    assert HexValue("483") == Some(0x483) by {
      assert "483"[..2] == "48" && "48"[..1] == "4";
    }
  }

  /** Dropping trailing white space from digits followed by white space leaves the digits. */
  lemma {:induction false} TrimEndAppend(s: string, t: string)
    requires s == "" || !IsSpace(s[|s| - 1])
    requires forall i :: 0 <= i < |t| ==> IsSpace(t[i])
    ensures TrimEnd(s + t) == s
    decreases |t|
  {
    if t == [] {
      assert s + t == s;
    } else {
      var u := t[..|t| - 1];
      assert (s + t)[..|s + t| - 1] == s + u;
      TrimEndAppend(s, u);
    }
  }

  /**
   * An id text followed by white space is read as the text alone: "1A "
   * gives 26, like "1A". White space in front of it gives NaN.
   */
  lemma TrailingSpaceIgnored(s: string, t: string)
    requires s == "" || !IsSpace(s[|s| - 1])
    requires forall i :: 0 <= i < |t| ==> IsSpace(t[i])
    ensures HexNumber(Str(s + t)) == HexNumber(Str(s))
    ensures |t| > 0 && s != "" ==> HexNumber(Str(t + s)).None?
  {
    TrimEndAppend(s, t);
    TrimEndAppend(s, "");
    assert s + "" == s;
    if |t| > 0 && s != "" {
      var w := TrimEnd(t + s);
      assert (t + s)[0] == t[0];
      if |w| > 0 {
        assert w[0] == t[0];
        LeadingSpaceNoHex(w);
      }
    }
  }

  /** A text that starts with white space has no hexadecimal value. */
  lemma {:induction false} LeadingSpaceNoHex(w: string)
    requires |w| > 0 && IsSpace(w[0])
    ensures HexValue(w) == None
    decreases |w|
  {
    if |w| > 1 {
      var front := w[..|w| - 1];
      assert front[0] == w[0];
      LeadingSpaceNoHex(front);
    }
  }
}
