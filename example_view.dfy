/**
 * The example gallery page of views/example.js: reading the page's query
 * string, preparing the list of examples it downloads (the featured one
 * taken out, long descriptions shortened, the rest split into official and
 * community examples), and the stack of callbacks waiting for replies from
 * the extension.
 */
module ExampleView {
  import opened Wrappers
  import Strings

  // ----- parseQuery ---------------------------------------------------------

  /** The key of one `key=value` item: the text before the first '='. */
  function QueryKey(item: string): string
  {
    Strings.Split(item, '=')[0]
  }

  /**
   * The value of one item: the decoded text between the first and the
   * second '=', or `undefined` (None) when there is no '=' or that text is
   * empty. `decode` stands for `decodeURIComponent`.
   */
  function QueryValue(item: string, decode: string -> string): Option<string>
  {
    var parts := Strings.Split(item, '=');
    if |parts| > 1 && parts[1] != "" then Some(decode(parts[1])) else None
  }

  /** The items of the query: the text between the first and second '?', split at '&'. */
  function QueryItems(url: string): seq<string>
  {
    if '?' !in url then []
    else
      Strings.SplitCount(url, '?');
      Strings.CountZero(url, '?');
      Strings.Split(Strings.Split(url, '?')[1], '&')
  }

  /**
   * The one key an assignment to a plain object never stores: `res["__proto__"] = v`
   * calls the prototype setter inherited from `Object.prototype`, which ignores
   * a string or `undefined`.
   */
  const ProtoKey: string := "__proto__"

  /**
   * The object built from the items, later items overwriting earlier ones;
   * an item whose key is `ProtoKey` leaves the object as it is.
   */
  function Entries(items: seq<string>, decode: string -> string): map<string, Option<string>>
  {
    if items == [] then map[]
    else
      var last := items[|items| - 1];
      var front := Entries(items[..|items| - 1], decode);
      if QueryKey(last) == ProtoKey then front
      else front[QueryKey(last) := QueryValue(last, decode)]
  }

  /** `parseQuery`: `{}` without a '?'; otherwise one entry per item, in order. */
  method ParseQuery(url: string, decode: string -> string) returns (res: map<string, Option<string>>)
    ensures '?' !in url ==> res == map[]
    ensures res == Entries(QueryItems(url), decode)
  {
    if '?' !in url {
      return map[];
    }
    var query := QueryItems(url);
    res := map[];
    for i := 0 to |query|
      invariant res == Entries(query[..i], decode)
    {
      EntriesPrefix(query, i, decode);
      var key := QueryKey(query[i]);
      if key != ProtoKey {
        res := res[key := QueryValue(query[i], decode)];
      }
    }
    assert query[..|query|] == query;
  }

  lemma EntriesPrefix(items: seq<string>, i: int, decode: string -> string)
    requires 0 <= i < |items|
    ensures QueryKey(items[i]) == ProtoKey ==> Entries(items[..i + 1], decode) == Entries(items[..i], decode)
    ensures QueryKey(items[i]) != ProtoKey ==>
      Entries(items[..i + 1], decode) == Entries(items[..i], decode)[QueryKey(items[i]) := QueryValue(items[i], decode)]
  {
    assert items[..i + 1][..i] == items[..i];
  }

  /** A key is present exactly when some item has it and it is not `ProtoKey`. */
  lemma {:induction false} EntriesKeys(items: seq<string>, decode: string -> string, key: string)
    ensures key in Entries(items, decode) <==> key != ProtoKey && exists i :: 0 <= i < |items| && QueryKey(items[i]) == key
  {
    if items != [] {
      var front := items[..|items| - 1];
      EntriesKeys(front, decode, key);
      if key in Entries(front, decode) {
        var i :| 0 <= i < |front| && QueryKey(front[i]) == key;
        assert items[i] == front[i];
      }
      if exists i :: 0 <= i < |items| && QueryKey(items[i]) == key {
        var i :| 0 <= i < |items| && QueryKey(items[i]) == key;
        if i < |front| {
          assert front[i] == items[i];
        }
      }
    }
  }

  /** A key's value comes from the last item that has that key. */
  lemma {:induction false} EntriesLast(items: seq<string>, decode: string -> string, j: int)
    requires 0 <= j < |items|
    requires forall i :: j < i < |items| ==> QueryKey(items[i]) != QueryKey(items[j])
    ensures QueryKey(items[j]) != ProtoKey ==>
      QueryKey(items[j]) in Entries(items, decode) &&
      Entries(items, decode)[QueryKey(items[j])] == QueryValue(items[j], decode)
  {
    if j < |items| - 1 {
      var front := items[..|items| - 1];
      assert front[j] == items[j];
      assert forall i :: j < i < |front| ==> front[i] == items[i];
      EntriesLast(front, decode, j);
    }
  }

  /** A character that is no separator and in no part is not in the joined text. */
  lemma {:induction false} JoinAvoids(parts: seq<string>, sep: char, c: char)
    requires c != sep
    requires forall i :: 0 <= i < |parts| ==> c !in parts[i]
    ensures c !in Strings.Join(parts, [sep])
    decreases |parts|
  {
    if |parts| > 1 {
      JoinAvoids(parts[1..], sep, c);
    }
  }

  /** The items of `base?rest` are the '&'-separated parts of `rest` when neither holds a '?'. */
  lemma QueryItemsAfter(base: string, rest: string)
    requires '?' !in base && '?' !in rest
    ensures QueryItems(base + "?" + rest) == Strings.Split(rest, '&')
  {
    var url := base + "?" + rest;
    assert url[|base|] == '?';
    Strings.SplitSeparated(base, rest, '?');
    assert Strings.Split(url, '?') == [base, rest];
  }

  /** The query item `key=value`. */
  function QueryItem(key: string, value: string): string
  {
    key + "=" + value
  }

  /** Whether a text can stand as a key or value of a query without escaping. */
  predicate Plain(s: string)
  {
    '=' !in s && '&' !in s && '?' !in s
  }

  /**
   * Reading back a query written as `base?k1=v1&k2=v2...` with distinct
   * plain keys and non-empty plain values gives each key but `ProtoKey` its
   * decoded value, and no other key.
   */
  lemma QueryRoundTrip(base: string, keys: seq<string>, values: seq<string>, decode: string -> string)
    requires '?' !in base
    requires |keys| == |values| >= 1
    requires forall i :: 0 <= i < |keys| ==> Plain(keys[i]) && Plain(values[i]) && values[i] != ""
    requires forall i, j :: 0 <= i < j < |keys| ==> keys[i] != keys[j]
    ensures var r := Entries(QueryItems(base + "?" + Strings.Join(seq(|keys|, i requires 0 <= i < |keys| => QueryItem(keys[i], values[i])), "&")), decode);
      (forall key :: key in r <==> key in keys && key != ProtoKey) &&
      (forall i :: 0 <= i < |keys| && keys[i] != ProtoKey ==> r[keys[i]] == Some(decode(values[i])))
  {
    var items := seq(|keys|, i requires 0 <= i < |keys| => QueryItem(keys[i], values[i]));
    var joined := Strings.Join(items, "&");
    var url := base + "?" + joined;
    forall i | 0 <= i < |items|
      ensures '&' !in items[i] && '?' !in items[i]
      ensures QueryKey(items[i]) == keys[i]
      ensures QueryValue(items[i], decode) == Some(decode(values[i]))
    {
      Strings.SplitSeparated(keys[i], values[i], '=');
    }
    Strings.SplitJoin(items, '&');
    JoinAvoids(items, '&', '?');
    QueryItemsAfter(base, joined);
    var r := Entries(items, decode);
    forall key
      ensures key in r <==> key in keys && key != ProtoKey
    {
      EntriesKeys(items, decode, key);
      if key in keys {
        var i :| 0 <= i < |keys| && keys[i] == key;
        assert QueryKey(items[i]) == key;
      }
    }
    forall i | 0 <= i < |keys| && keys[i] != ProtoKey
      ensures r[keys[i]] == Some(decode(values[i]))
    {
      EntriesLast(items, decode, i);
    }
  }

  // ----- the example list ---------------------------------------------------

  /** The fields of a gallery example that the page reads or rewrites. */
  datatype Example = Example(
    name: string,
    description: Option<string>,
    fullDescription: Option<string>,
    featured: bool,
    author: Option<string>)

  /** Descriptions longer than this are shortened. */
  const MaxDescriptionLength := 80
  /** How many characters of a long description are kept. */
  const KeptLength := 77
  const Ellipsis := "..."

  /** A long description becomes its first 77 characters and "..."; others stay. */
  function Truncate(description: Option<string>): (r: Option<string>)
    ensures r.None? <==> description.None?
    ensures r.Some? ==> |r.value| <= MaxDescriptionLength
    ensures r == description <==> description.None? || |description.value| <= MaxDescriptionLength
  {
    match description
    case None => None
    case Some(d) => if |d| > MaxDescriptionLength then Some(d[..KeptLength] + Ellipsis) else description
  }

  /** A shortened description starts as the original does and ends with the ellipsis. */
  lemma TruncateKeepsStart(description: string)
    requires |description| > MaxDescriptionLength
    ensures var r := Truncate(Some(description)).value;
      |r| == MaxDescriptionLength &&
      r[..KeptLength] == description[..KeptLength] &&
      r[KeptLength..] == Ellipsis
  {
  }

  /** Shortening twice is shortening once. */
  lemma TruncateIdempotent(description: Option<string>)
    ensures Truncate(Truncate(description)) == Truncate(description)
  {
  }

  /** An example in the list after loading: its full description kept, its description shortened. */
  function Prepared(e: Example): Example
  {
    e.(fullDescription := e.description, description := Truncate(e.description))
  }

  function PrepareAll(examples: seq<Example>): (r: seq<Example>)
    ensures |r| == |examples|
    ensures forall i :: 0 <= i < |examples| ==> r[i] == Prepared(examples[i])
  {
    seq(|examples|, i requires 0 <= i < |examples| => Prepared(examples[i]))
  }

  /** The index of the first featured example, or -1. */
  function FirstFeatured(examples: seq<Example>): (r: int)
    ensures -1 <= r < |examples|
    ensures r == -1 <==> forall i :: 0 <= i < |examples| ==> !examples[i].featured
    ensures r >= 0 ==> examples[r].featured && forall i :: 0 <= i < r ==> !examples[i].featured
  {
    if examples == [] then -1
    else if examples[0].featured then 0
    else
      var r := FirstFeatured(examples[1..]);
      assert forall i :: 1 <= i < |examples| ==> examples[i] == examples[1..][i - 1];
      if r < 0 then -1 else r + 1
  }

  /**
   * The loop of the load handler over the examples still to visit, given
   * whether a featured example was already taken: the featured example (with
   * its full description) and the remaining examples, prepared.
   */
  function Process(examples: seq<Example>, featured: Option<Example>): (Option<Example>, seq<Example>)
  {
    if examples == [] then (featured, [])
    else
      var e := examples[0];
      if e.featured && featured.None? then Process(examples[1..], Some(e.(fullDescription := e.description)))
      else
        var rest := Process(examples[1..], featured);
        (rest.0, [Prepared(e)] + rest.1)
  }

  /** Once an example is taken, the others are only prepared. */
  lemma {:induction false} ProcessTaken(examples: seq<Example>, featured: Example)
    ensures Process(examples, Some(featured)) == (Some(featured), PrepareAll(examples))
  {
    if examples != [] {
      ProcessTaken(examples[1..], featured);
      assert PrepareAll(examples) == [Prepared(examples[0])] + PrepareAll(examples[1..]);
    }
  }

  /** The featured example taken out of the list, its description kept whole. */
  function FeaturedOf(examples: seq<Example>): Option<Example>
  {
    var f := FirstFeatured(examples);
    if f < 0 then None else Some(examples[f].(fullDescription := examples[f].description))
  }

  /** The examples left in the list: all but the first featured one, in order. */
  function Remaining(examples: seq<Example>): seq<Example>
  {
    var f := FirstFeatured(examples);
    if f < 0 then examples else examples[..f] + examples[f + 1..]
  }

  lemma PrepareAllCons(e: Example, examples: seq<Example>)
    ensures PrepareAll([e] + examples) == [Prepared(e)] + PrepareAll(examples)
  {
  }

  /** An example that is not featured stays at the head of the list. */
  lemma RemainingCons(examples: seq<Example>)
    requires examples != [] && !examples[0].featured
    ensures FeaturedOf(examples) == FeaturedOf(examples[1..])
    ensures Remaining(examples) == [examples[0]] + Remaining(examples[1..])
  {
    var tail := examples[1..];
    var g := FirstFeatured(tail);
    assert FirstFeatured(examples) == if g < 0 then -1 else g + 1;
    if g >= 0 {
      assert tail[g] == examples[g + 1];
      RemoveAtCons(examples, g + 1);
    }
  }

  /** Removing an element after the head keeps the head in front. */
  lemma RemoveAtCons<T>(xs: seq<T>, f: int)
    requires 1 <= f < |xs|
    ensures xs[..f] + xs[f + 1..] == [xs[0]] + (xs[1..][..f - 1] + xs[1..][f..])
  {
    assert xs[..f] == [xs[0]] + xs[1..][..f - 1];
    assert xs[f + 1..] == xs[1..][f..];
  }

  /**
   * The loop takes out the first featured example, keeps its description
   * whole, and prepares every other example in order.
   */
  lemma {:induction false} ProcessFirstFeatured(examples: seq<Example>)
    ensures Process(examples, None) == (FeaturedOf(examples), PrepareAll(Remaining(examples)))
  {
    if examples != [] {
      var e := examples[0];
      var tail := examples[1..];
      if e.featured {
        ProcessTaken(tail, e.(fullDescription := e.description));
        assert examples[..0] + examples[1..] == tail;
      } else {
        ProcessFirstFeatured(tail);
        RemainingCons(examples);
        PrepareAllCons(e, Remaining(tail));
      }
    }
  }

  /** Whether an example names an author (a non-empty `author`). */
  predicate HasAuthor(e: Example)
  {
    e.author.Some? && e.author.value != ""
  }

  /** The examples whose authorship is as asked, in order. */
  function ByAuthorship(examples: seq<Example>, authored: bool): seq<Example>
  {
    if examples == [] then []
    else (if HasAuthor(examples[0]) == authored then [examples[0]] else []) + ByAuthorship(examples[1..], authored)
  }

  /** Official examples have no author; community examples have one; together they are the list. */
  lemma {:induction false} PartitionExamples(examples: seq<Example>)
    ensures forall e :: e in ByAuthorship(examples, false) <==> e in examples && !HasAuthor(e)
    ensures forall e :: e in ByAuthorship(examples, true) <==> e in examples && HasAuthor(e)
    ensures multiset(ByAuthorship(examples, false)) + multiset(ByAuthorship(examples, true)) == multiset(examples)
  {
    if examples != [] {
      PartitionExamples(examples[1..]);
      assert examples == [examples[0]] + examples[1..];
    }
  }

  /**
   * The part of the load handler that prepares the list: takes out the first
   * featured example, shortens the other descriptions, and splits the rest
   * into official and community examples.
   */
  method LoadExamples(downloaded: seq<Example>)
    returns (featured: Option<Example>, official: seq<Example>, community: seq<Example>)
    ensures featured == FeaturedOf(downloaded)
    ensures official == ByAuthorship(PrepareAll(Remaining(downloaded)), false)
    ensures community == ByAuthorship(PrepareAll(Remaining(downloaded)), true)
  {
    var examples := downloaded;
    featured := None;
    var i := 0;
    ghost var whole := Process(downloaded, None);
    assert examples[i..] == downloaded && examples[..i] == [];
    while i < |examples|
      invariant 0 <= i <= |examples|
      invariant Process(examples[i..], featured).0 == whole.0
      invariant examples[..i] + Process(examples[i..], featured).1 == whole.1
      decreases |examples| - i
    {
      var e := examples[i];
      if e.featured && featured.None? {
        TakeStep(examples, i);
        featured := Some(e.(fullDescription := e.description));
        examples := examples[..i] + examples[i + 1..];
      } else {
        PrepareStep(examples, i, featured);
        examples := examples[i := Prepared(e)];
        i := i + 1;
      }
    }
    assert examples[i..] == [] && examples[..i] == examples;
    assert Process(examples[i..], featured) == (featured, []);
    assert examples == whole.1;
    ProcessFirstFeatured(downloaded);
    official := ByAuthorship(examples, false);
    community := ByAuthorship(examples, true);
  }

  /** Taking out the featured example at `i` leaves the visited examples and the loop's result as they were. */
  lemma TakeStep(examples: seq<Example>, i: int)
    requires 0 <= i < |examples| && examples[i].featured
    ensures var e := examples[i];
      var after := examples[..i] + examples[i + 1..];
      after[..i] == examples[..i] &&
      Process(after[i..], Some(e.(fullDescription := e.description))) == Process(examples[i..], None)
  {
    var after := examples[..i] + examples[i + 1..];
    assert after[i..] == examples[i + 1..];
    assert examples[i..][1..] == examples[i + 1..];
  }

  /** Preparing the example at `i` moves it into the visited part without changing the loop's result. */
  lemma PrepareStep(examples: seq<Example>, i: int, featured: Option<Example>)
    requires 0 <= i < |examples| && !(examples[i].featured && featured.None?)
    ensures var after := examples[i := Prepared(examples[i])];
      Process(after[i + 1..], featured).0 == Process(examples[i..], featured).0 &&
      after[..i + 1] + Process(after[i + 1..], featured).1 == examples[..i] + Process(examples[i..], featured).1
  {
    var after := examples[i := Prepared(examples[i])];
    assert after[i + 1..] == examples[i + 1..];
    assert examples[i..][1..] == examples[i + 1..];
    assert after[..i + 1] == examples[..i] + [Prepared(examples[i])];
  }

  // ----- replies from the extension ----------------------------------------

  /** A callback waiting for the reply to the message with the same id; callbacks are named by a handle. */
  datatype CallbackItem = CallbackItem(messageId: int, callback: Option<nat>)

  /** A message posted to the extension. */
  datatype OutgoingMessage = OutgoingMessage(messageId: int, command: string, parameter: seq<string>)

  /** The index of the first waiting callback for a message id, or -1. */
  function FirstMatch(stack: seq<CallbackItem>, messageId: int): (r: int)
    ensures -1 <= r < |stack|
    ensures r == -1 <==> forall i :: 0 <= i < |stack| ==> stack[i].messageId != messageId
    ensures r >= 0 ==> stack[r].messageId == messageId && forall i :: 0 <= i < r ==> stack[i].messageId != messageId
  {
    if stack == [] then -1
    else if stack[0].messageId == messageId then 0
    else
      var r := FirstMatch(stack[1..], messageId);
      assert forall i :: 1 <= i < |stack| ==> stack[i] == stack[1..][i - 1];
      if r < 0 then -1 else r + 1
  }

  predicate UniqueIds(stack: seq<CallbackItem>)
  {
    forall i, j :: 0 <= i < j < |stack| ==> stack[i].messageId != stack[j].messageId
  }

  /** A callback pushed with a new id is the one the reply with that id finds. */
  lemma PushedIsFound(stack: seq<CallbackItem>, item: CallbackItem)
    requires forall i :: 0 <= i < |stack| ==> stack[i].messageId != item.messageId
    ensures FirstMatch(stack + [item], item.messageId) == |stack|
  {
    var s := stack + [item];
    var r := FirstMatch(s, item.messageId);
    assert s[|stack|] == item;
  }

  /** After a reply removes its callback, a second reply with that id finds nothing, and ids stay unique. */
  lemma ReplyOnlyOnce(stack: seq<CallbackItem>, messageId: int)
    requires UniqueIds(stack)
    requires FirstMatch(stack, messageId) >= 0
    ensures var k := FirstMatch(stack, messageId);
      FirstMatch(stack[..k] + stack[k + 1..], messageId) == -1 && UniqueIds(stack[..k] + stack[k + 1..])
  {
    var k := FirstMatch(stack, messageId);
    var s := stack[..k] + stack[k + 1..];
    forall i | 0 <= i < |s|
      ensures s[i] == if i < k then stack[i] else stack[i + 1]
    {
    }
  }

  /** The webview's end of the conversation with the extension. */
  class MessageChannel {
    /** `callbackStack`: the callbacks still waiting for a reply, oldest first. */
    var callbackStack: seq<CallbackItem>
    /** The messages posted to the extension so far. */
    var posted: seq<OutgoingMessage>

    constructor()
      ensures callbackStack == [] && posted == []
    {
      callbackStack := [];
      posted := [];
    }

    /**
     * `command`: an empty command does nothing; otherwise the callback (the
     * last argument when it is a function) waits under a new message id and
     * the command is posted with the other arguments. The id, a clock
     * reading plus a random number, is given.
     */
    method Command(cmd: string, args: seq<string>, callback: Option<nat>, messageId: int)
      modifies this
      ensures cmd == "" ==> callbackStack == old(callbackStack) && posted == old(posted)
      ensures cmd != "" ==> callbackStack == old(callbackStack) + [CallbackItem(messageId, callback)]
      ensures cmd != "" ==> posted == old(posted) + [OutgoingMessage(messageId, cmd, args)]
    {
      if cmd == "" {
        return;
      }
      callbackStack := callbackStack + [CallbackItem(messageId, callback)];
      posted := posted + [OutgoingMessage(messageId, cmd, args)];
    }

    /**
     * The message listener: the first callback waiting for the reply's id is
     * called (when there is one) and removed; a reply nobody waits for
     * changes nothing. Returns the handle of the callback called.
     */
    method OnMessage(messageId: int) returns (invoked: Option<nat>)
      modifies this
      ensures posted == old(posted)
      ensures var k := FirstMatch(old(callbackStack), messageId);
        (k < 0 ==> callbackStack == old(callbackStack) && invoked == None) &&
        (k >= 0 ==> callbackStack == old(callbackStack)[..k] + old(callbackStack)[k + 1..] && invoked == old(callbackStack)[k].callback)
    {
      invoked := None;
      var index := 0;
      while index < |callbackStack|
        invariant 0 <= index <= |callbackStack|
        invariant callbackStack == old(callbackStack)
        invariant forall i :: 0 <= i < index ==> callbackStack[i].messageId != messageId
      {
        var callbackItem := callbackStack[index];
        if callbackItem.messageId == messageId {
          invoked := callbackItem.callback;
          callbackStack := callbackStack[..index] + callbackStack[index + 1..];
          return;
        }
        index := index + 1;
      }
    }
  }
}
