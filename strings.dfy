/**
 * String helpers standing in for the JavaScript `String` and `Array`
 * built-ins the extension calls: `indexOf`, `split`, `join`, `toLowerCase`,
 * `trim`, `startsWith`, `endsWith`, `<` on strings and number formatting.
 * Strings are sequences of characters, written `seq<char>`.
 */
module Strings {

  /** `s.indexOf(c)`: the first position of `c`, or -1. */
  function IndexOf(s: string, c: char): (r: int)
    ensures -1 <= r < |s|
    ensures r == -1 ==> forall j :: 0 <= j < |s| ==> s[j] != c
    ensures r >= 0 ==> s[r] == c && forall j :: 0 <= j < r ==> s[j] != c
  {
    IndexFrom(s, c, 0)
  }

  /** The search behind `indexOf`: the first position at or after `k` holding `c`, or -1. */
  function IndexFrom(s: string, c: char, k: nat): (r: int)
    requires k <= |s|
    ensures r == -1 || k <= r < |s|
    ensures r == -1 ==> forall j :: k <= j < |s| ==> s[j] != c
    ensures r >= 0 ==> s[r] == c && forall j :: k <= j < r ==> s[j] != c
    decreases |s| - k
  {
    if k == |s| then -1
    else if s[k] == c then k
    else IndexFrom(s, c, k + 1)
  }

  /** The number of times `c` occurs in `s`. */
  function Count(s: string, c: char): nat
  {
    if |s| == 0 then 0 else (if s[0] == c then 1 else 0) + Count(s[1..], c)
  }

  lemma CountZero(s: string, c: char)
    ensures Count(s, c) == 0 <==> c !in s
  {
    if |s| > 0 { CountZero(s[1..], c); }
  }

  lemma {:induction false} CountAppend(a: string, b: string, c: char)
    ensures Count(a + b, c) == Count(a, c) + Count(b, c)
  {
    if |a| == 0 {
      assert a + b == b;
    } else {
      assert (a + b)[1..] == a[1..] + b;
      CountAppend(a[1..], b, c);
    }
  }

  /** The first occurrence is the one with no earlier occurrence. */
  lemma IndexOfFirst(s: string, c: char, i: int)
    requires 0 <= i < |s| && s[i] == c && c !in s[..i]
    ensures IndexOf(s, c) == i
  {
    assert c in s;
    var r := IndexOf(s, c);
    assert forall k :: 0 <= k < i ==> s[..i][k] == s[k];
    assert forall k :: 0 <= k < r ==> s[..r][k] == s[k];
  }

  /** `s.split(sep)` for a one-character separator: never empty, and the parts hold no separator. */
  function Split(s: string, sep: char): (parts: seq<string>)
    ensures |parts| >= 1
    ensures NoneHold(parts, sep)
    ensures sep !in s ==> parts == [s]
    decreases |s|
  {
    var i := IndexOf(s, sep);
    if i < 0 then [s] else [s[..i]] + Split(s[i + 1..], sep)
  }

  /** None of the parts holds the character. */
  predicate NoneHold(parts: seq<string>, c: char)
  {
    forall i :: 0 <= i < |parts| ==> c !in parts[i]
  }

  /** `parts.join(sep)`. */
  function Join(parts: seq<string>, sep: string): string
  {
    if |parts| == 0 then ""
    else if |parts| == 1 then parts[0]
    else parts[0] + sep + Join(parts[1..], sep)
  }

  /** Joining one more part appends the separator and that part. */
  lemma {:induction false} JoinAppend(parts: seq<string>, last: string, sep: string)
    requires |parts| >= 1
    ensures Join(parts + [last], sep) == Join(parts, sep) + sep + last
    decreases |parts|
  {
    if |parts| > 1 {
      assert (parts + [last])[1..] == parts[1..] + [last];
      JoinAppend(parts[1..], last, sep);
    } else {
      assert (parts + [last])[1..] == [last];
    }
  }

  /** Splitting and joining back with the same separator gives the original text. */
  lemma {:induction false} JoinSplit(s: string, sep: char)
    ensures Join(Split(s, sep), [sep]) == s
    decreases |s|
  {
    var i := IndexOf(s, sep);
    if i >= 0 {
      JoinSplit(s[i + 1..], sep);
      SplitAt(s, sep, i);
      JoinCons(s[..i], Split(s[i + 1..], sep), [sep]);
      Rejoin(s, i);
    }
  }

  /** The split at the first separator: the text before it, then the split of the rest. */
  lemma SplitAt(s: string, sep: char, i: int)
    requires i == IndexOf(s, sep) && i >= 0
    ensures Split(s, sep) == [s[..i]] + Split(s[i + 1..], sep)
  {
  }

  /** The text around position `i`, with the character at `i` put back. */
  lemma Rejoin(s: string, i: int)
    requires 0 <= i < |s|
    ensures s[..i] + [s[i]] + s[i + 1..] == s
  {
  }

  /** Joining a part in front of at least one more. */
  lemma JoinCons(head: string, tail: seq<string>, sep: string)
    requires |tail| >= 1
    ensures Join([head] + tail, sep) == head + sep + Join(tail, sep)
  {
    assert ([head] + tail)[1..] == tail;
  }

  /** The number of parts is one more than the number of separators. */
  lemma {:induction false} SplitCount(s: string, sep: char)
    ensures |Split(s, sep)| == Count(s, sep) + 1
    decreases |s|
  {
    var i := IndexOf(s, sep);
    if i < 0 {
      CountZero(s, sep);
    } else {
      SplitCount(s[i + 1..], sep);
      SplitAt(s, sep, i);
      CountAround(s, i, sep);
    }
  }

  /** The count around the first occurrence: none before it, one at it. */
  lemma CountAround(s: string, i: int, c: char)
    requires i == IndexOf(s, c) && i >= 0
    ensures Count(s, c) == 1 + Count(s[i + 1..], c)
  {
    assert s == s[..i] + ([c] + s[i + 1..]);
    CountAppend(s[..i], [c] + s[i + 1..], c);
    CountAppend([c], s[i + 1..], c);
    CountZero(s[..i], c);
  }

  /** Splitting a joined list of separator-free parts gives the parts back. */
  lemma {:induction false} SplitJoin(parts: seq<string>, sep: char)
    requires |parts| >= 1
    requires forall i :: 0 <= i < |parts| ==> sep !in parts[i]
    ensures Split(Join(parts, [sep]), sep) == parts
    decreases |parts|
  {
    if |parts| > 1 {
      var rest := Join(parts[1..], [sep]);
      SplitJoin(parts[1..], sep);
      var s := parts[0] + [sep] + rest;
      assert s == Join(parts, [sep]);
      assert s[..|parts[0]|] == parts[0];
      assert s[|parts[0]|] == sep;
      assert s[|parts[0]| + 1..] == rest;
      assert IndexOf(s, sep) == |parts[0]|;
    }
  }

  /** Splitting text joined at a separator splits each side on its own. */
  lemma {:induction false} SplitSeparated(a: string, b: string, sep: char)
    ensures Split(a + [sep] + b, sep) == Split(a, sep) + Split(b, sep)
    decreases |a|
  {
    var s := a + [sep] + b;
    var i := IndexOf(a, sep);
    if i < 0 {
      SeparatorAfter(a, b, sep);
      SplitAt(s, sep, |a|);
    } else {
      SeparatorInside(a, b, sep, i);
      SplitAt(s, sep, i);
      SplitAt(a, sep, i);
      SplitSeparated(a[i + 1..], b, sep);
      ConsAppend(a[..i], Split(a[i + 1..], sep), Split(b, sep));
    }
  }

  /** With no separator in `a`, the first one of `a + [sep] + b` is the added one. */
  lemma SeparatorAfter(a: string, b: string, sep: char)
    requires sep !in a
    ensures var s := a + [sep] + b;
      IndexOf(s, sep) == |a| && s[..|a|] == a && s[|a| + 1..] == b
  {
    var s := a + [sep] + b;
    assert s[..|a|] == a;
    IndexOfFirst(s, sep, |a|);
  }

  /** The first separator of `a` is the first one of `a + [sep] + b`. */
  lemma SeparatorInside(a: string, b: string, sep: char, i: int)
    requires i == IndexOf(a, sep) && i >= 0
    ensures var s := a + [sep] + b;
      IndexOf(s, sep) == i && s[..i] == a[..i] && s[i + 1..] == a[i + 1..] + [sep] + b
  {
    var s := a + [sep] + b;
    assert s[..i] == a[..i];
    IndexOfFirst(s, sep, i);
  }

  /** Putting a part in front commutes with appending more parts. */
  lemma ConsAppend(x: string, p: seq<string>, q: seq<string>)
    ensures [x] + (p + q) == [x] + p + q
  {
  }

  predicate StartsWith(s: string, prefix: string)
  {
    |prefix| <= |s| && s[..|prefix|] == prefix
  }

  predicate EndsWith(s: string, suffix: string)
  {
    |suffix| <= |s| && s[|s| - |suffix|..] == suffix
  }

  /** `haystack.indexOf(needle) !== -1`. */
  predicate Contains(haystack: string, needle: string)
  {
    exists i :: 0 <= i <= |haystack| - |needle| && OccursAt(haystack, needle, i)
  }

  predicate OccursAt(haystack: string, needle: string, i: int)
  {
    0 <= i <= |haystack| - |needle| && haystack[i..i + |needle|] == needle
  }

  /** `toLowerCase` on the ASCII letters; other code units are unchanged. */
  function LowerChar(c: char): (r: char)
    ensures 'A' <= c <= 'Z' ==> r as int == c as int + 32
    ensures !('A' <= c <= 'Z') ==> r == c
  {
    if 'A' <= c <= 'Z' then (c as int + 32) as char else c
  }

  function ToLower(s: string): (r: string)
    ensures |r| == |s|
    ensures forall i :: 0 <= i < |s| ==> r[i] == LowerChar(s[i])
  {
    if |s| == 0 then "" else [LowerChar(s[0])] + ToLower(s[1..])
  }

  /**
   * The white space `trim` removes and `/\s/` matches: the ECMAScript
   * WhiteSpace and LineTerminator characters.
   */
  predicate IsSpace(c: char)
  {
    '\t' <= c <= '\r' || c == ' ' || c == '\U{00A0}' || c == '\U{1680}' ||
    '\U{2000}' <= c <= '\U{200A}' || c == '\U{2028}' || c == '\U{2029}' || c == '\U{202F}' ||
    c == '\U{205F}' || c == '\U{3000}' || c == '\U{FEFF}'
  }

  function TrimStart(s: string): (r: string)
    ensures |r| <= |s| && r == s[|s| - |r|..]
    ensures |r| > 0 ==> !IsSpace(r[0])
    ensures forall i :: 0 <= i < |s| - |r| ==> IsSpace(s[i])
  {
    if |s| > 0 && IsSpace(s[0]) then TrimStart(s[1..]) else s
  }

  function TrimEnd(s: string): (r: string)
    ensures |r| <= |s| && r == s[..|r|]
    ensures |r| > 0 ==> !IsSpace(r[|r| - 1])
    ensures forall i :: |r| <= i < |s| ==> IsSpace(s[i])
  {
    if |s| > 0 && IsSpace(s[|s| - 1]) then TrimEnd(s[..|s| - 1]) else s
  }

  /** `s.trim()`. */
  function Trim(s: string): string
  {
    TrimEnd(TrimStart(s))
  }

  /** A trimmed string is empty exactly when the input is all white space. */
  lemma TrimEmpty(s: string)
    ensures Trim(s) == "" <==> forall i :: 0 <= i < |s| ==> IsSpace(s[i])
  {
  }

  /** JavaScript `a < b` on strings: code-unit lexicographic order. */
  predicate LexLess(a: string, b: string)
  {
    if |b| == 0 then false
    else if |a| == 0 then true
    else if a[0] != b[0] then a[0] < b[0]
    else LexLess(a[1..], b[1..])
  }

  predicate LexLessEq(a: string, b: string)
  {
    a == b || LexLess(a, b)
  }

  /** Decimal digits of a natural number, as `String(n)` prints it. */
  function NatToString(n: nat): (r: string)
    ensures |r| >= 1
    ensures forall i :: 0 <= i < |r| ==> '0' <= r[i] <= '9'
    decreases n
  {
    var d := ['0' + (n % 10) as char];
    if n < 10 then d else NatToString(n / 10) + d
  }

  /** The value of a string of decimal digits. */
  function DigitsValue(s: string): nat
    requires forall i :: 0 <= i < |s| ==> '0' <= s[i] <= '9'
  {
    if |s| == 0 then 0 else DigitsValue(s[..|s| - 1]) * 10 + (s[|s| - 1] - '0') as nat
  }

  /** Printing a number and reading it back gives the number. */
  lemma {:induction false} NatToStringValue(n: nat)
    ensures DigitsValue(NatToString(n)) == n
    decreases n
  {
    var r := NatToString(n);
    if n >= 10 {
      NatToStringValue(n / 10);
      assert r[..|r| - 1] == NatToString(n / 10);
    }
  }

  /** Different numbers print differently. */
  lemma NatToStringInjective(m: nat, n: nat)
    requires NatToString(m) == NatToString(n)
    ensures m == n
  {
    NatToStringValue(m);
    NatToStringValue(n);
  }

  /** The n-th of a run of names: the base itself, then base_1, base_2, ... */
  function Numbered(base: string, counter: nat): string
  {
    if counter == 0 then base else base + "_" + NatToString(counter)
  }

  /** Different counters give different names. */
  lemma NumberedInjective(base: string, i: nat, j: nat)
    requires Numbered(base, i) == Numbered(base, j)
    ensures i == j
  {
    if i != 0 && j != 0 {
      assert Numbered(base, i)[|base| + 1..] == NatToString(i);
      assert Numbered(base, j)[|base| + 1..] == NatToString(j);
      NatToStringInjective(i, j);
    }
  }

  // ----- code-unit order and `uniq(xs).sort()` ------------------------------

  lemma {:induction false} LexLessIrreflexive(a: string)
    ensures !LexLess(a, a)
    decreases |a|
  {
    if |a| > 0 {
      LexLessIrreflexive(a[1..]);
    }
  }

  lemma {:induction false} LexLessTransitive(a: string, b: string, c: string)
    requires LexLess(a, b) && LexLess(b, c)
    ensures LexLess(a, c)
    decreases |a|
  {
    if |a| > 0 && a[0] == b[0] && b[0] == c[0] {
      LexLessTransitive(a[1..], b[1..], c[1..]);
    }
  }

  lemma {:induction false} LexLessTotal(a: string, b: string)
    ensures a == b || LexLess(a, b) || LexLess(b, a)
    decreases |a|
  {
    if |a| > 0 && |b| > 0 && a[0] == b[0] {
      LexLessTotal(a[1..], b[1..]);
      if a[1..] == b[1..] {
        assert a == [a[0]] + a[1..] && b == [b[0]] + b[1..];
      }
    }
  }

  /** Strictly increasing in code-unit order, hence also free of duplicates. */
  predicate StrictlySorted(s: seq<string>)
  {
    forall i, j :: 0 <= i < j < |s| ==> LexLess(s[i], s[j])
  }

  /** Puts `x` into its place in a strictly sorted list, unless it is there already. */
  function InsertSorted(x: string, s: seq<string>): (r: seq<string>)
  {
    if |s| == 0 then [x]
    else if x == s[0] then s
    else if LexLess(x, s[0]) then [x] + s
    else [s[0]] + InsertSorted(x, s[1..])
  }

  lemma {:induction false} InsertSortedKeeps(x: string, s: seq<string>)
    requires StrictlySorted(s)
    ensures StrictlySorted(InsertSorted(x, s))
    ensures forall y :: y in InsertSorted(x, s) <==> y in s || y == x
    decreases |s|
  {
    if |s| > 0 && x != s[0] && !LexLess(x, s[0]) {
      var t := s[1..];
      assert StrictlySorted(t) by {
        forall i, j | 0 <= i < j < |t| ensures LexLess(t[i], t[j]) {
          assert t[i] == s[i + 1] && t[j] == s[j + 1];
        }
      }
      InsertSortedKeeps(x, t);
      LexLessTotal(x, s[0]);
      var r := InsertSorted(x, t);
      forall y | y in r ensures LexLess(s[0], y) {
        if y != x {
          var k :| 0 <= k < |t| && t[k] == y;
          assert s[k + 1] == y;
        }
      }
      var full := [s[0]] + r;
      forall i, j | 0 <= i < j < |full| ensures LexLess(full[i], full[j]) {
        if i > 0 {
          assert full[i] == r[i - 1] && full[j] == r[j - 1];
        } else {
          assert full[j] in r;
        }
      }
      assert s == [s[0]] + t;
    } else if |s| > 0 && x != s[0] && LexLess(x, s[0]) {
      var full := [x] + s;
      forall i, j | 0 <= i < j < |full| ensures LexLess(full[i], full[j]) {
        if i > 0 {
          assert full[i] == s[i - 1] && full[j] == s[j - 1];
        } else if j > 1 {
          assert full[j] == s[j - 1];
          LexLessTransitive(x, s[0], s[j - 1]);
        }
      }
    }
  }

  /** `uniq(xs).sort()`: the distinct strings of `xs` in increasing code-unit order. */
  function SortUnique(xs: seq<string>): (r: seq<string>)
  {
    if |xs| == 0 then [] else InsertSorted(xs[|xs| - 1], SortUnique(xs[..|xs| - 1]))
  }

  /** The sorted list is strictly increasing and holds exactly the strings of the input. */
  lemma {:induction false} SortUniqueSpec(xs: seq<string>)
    ensures StrictlySorted(SortUnique(xs))
    ensures forall y :: y in SortUnique(xs) <==> y in xs
    decreases |xs|
  {
    if |xs| > 0 {
      var front := xs[..|xs| - 1];
      SortUniqueSpec(front);
      InsertSortedKeeps(xs[|xs| - 1], SortUnique(front));
      assert xs == front + [xs[|xs| - 1]];
    }
  }

  /** `xs.flatMap(f)`: the lists `f` gives for the elements of `xs`, one after another. */
  function ConcatMap<T, U>(xs: seq<T>, f: T --> seq<U>): seq<U>
    requires forall x :: x in xs ==> f.requires(x)
  {
    if xs == [] then [] else ConcatMap(xs[..|xs| - 1], f) + f(xs[|xs| - 1])
  }

  /** An element is in the concatenation exactly when it is in the list of some element of `xs`. */
  lemma {:induction false} ConcatMapSpec<T, U>(xs: seq<T>, f: T --> seq<U>, p: U)
    requires forall x :: x in xs ==> f.requires(x)
    ensures p in ConcatMap(xs, f) <==> exists x :: x in xs && p in f(x)
  {
    if xs != [] {
      var front := xs[..|xs| - 1];
      var last := xs[|xs| - 1];
      assert xs == front + [last];
      ConcatMapSpec(front, f, p);
    }
  }

  /** `g(n)` is built by appending the piece `a(i)` at each step `i < n`, starting empty. */
  ghost predicate Accumulates<T>(g: nat -> seq<T>, a: nat -> seq<T>, n: nat)
  {
    g(0) == [] && forall i :: 0 <= i < n ==> g(i + 1) == g(i) + a(i)
  }

  /** An element of an accumulated sequence comes from one of its pieces. */
  lemma {:induction false} AccumulatedSource<T>(g: nat -> seq<T>, a: nat -> seq<T>, n: nat, t: T) returns (k: nat)
    requires Accumulates(g, a, n) && t in g(n)
    ensures k < n && t in a(k)
    decreases n
  {
    assert g(n) == g(n - 1) + a(n - 1);
    if t in g(n - 1) {
      k := AccumulatedSource(g, a, n - 1, t);
    } else {
      k := n - 1;
    }
  }

  /** Every element of every piece is in the accumulated sequence. */
  lemma {:induction false} AccumulatedHas<T>(g: nat -> seq<T>, a: nat -> seq<T>, n: nat, k: nat, t: T)
    requires Accumulates(g, a, n) && k < n && t in a(k)
    ensures t in g(n)
    decreases n
  {
    assert g(n) == g(n - 1) + a(n - 1);
    if k < n - 1 {
      AccumulatedHas(g, a, n - 1, k, t);
    }
  }
}
