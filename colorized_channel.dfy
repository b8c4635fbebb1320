/**
 * The message formats of src/DigitalTwin/pnp/src/common/colorizedChannel.ts:
 * success and failure messages, the component tag, and the line each kind
 * of output writes to the channel.
 */
module ColorizedChannel {
  import opened Wrappers
  import opened Strings

  /** `operation.charAt(0).toLowerCase() + operation.slice(1)`. */
  function LowerFirst(operation: string): (r: string)
    ensures |r| == |operation|
    ensures |r| > 0 ==> r[0] == LowerChar(operation[0]) && r[1..] == operation[1..]
  {
    if |operation| == 0 then "" else [LowerChar(operation[0])] + operation[1..]
  }

  /**
   * `formatMessage`: "<operation> successfully" without an error, and
   * "Fail to <operation, first letter lowered>. Error: <message>" with one.
   */
  function FormatMessage(operation: string, error: Option<string>): (r: string)
    ensures error.None? ==> StartsWith(r, operation) && r[|operation|..] == " successfully"
    ensures error.Some? ==> StartsWith(r, "Fail to ") && EndsWith(r, ". Error: " + error.value)
    ensures error.Some? ==> |r| == 17 + |operation| + |error.value| && r[8..8 + |operation|] == LowerFirst(operation)
  {
    match error
    case None => operation + " successfully"
    case Some(message) =>
      var r := "Fail to " + LowerFirst(operation) + ". Error: " + message;
      assert r[8..8 + |operation|] == LowerFirst(operation);
      r
  }

  /**
   * A success message and a failure message of the same operation never
   * coincide: the failure message is always the longer.
   */
  lemma SuccessAndFailureDiffer(operation: string, message: string)
    ensures FormatMessage(operation, None) != FormatMessage(operation, Some(message))
  {
  }

  /** `createTag`: "[name]", or nothing for a missing or empty name. */
  function CreateTag(name: Option<string>): (r: string)
    ensures r == "" <==> name.None? || name.value == ""
    ensures r != "" ==> r[0] == '[' && r[|r| - 1] == ']' && r[1..|r| - 1] == name.value
  {
    if name.Some? && name.value != "" then "[" + name.value + "]" else ""
  }

  /** The kinds of line the channel writes, with their fixed prefixes. */
  datatype Kind = StartLine | DoneLine | WarnLine | ErrorLine

  function Prefix(kind: Kind): string
  {
    match kind
    case StartLine => "[Start]"
    case DoneLine => "[Done]"
    case WarnLine => "[Warn]"
    case ErrorLine => "[Error]"
  }

  /** A tagged line: the kind's prefix, the component tag, a space and the text. */
  function TaggedLine(kind: Kind, component: Option<string>, text: string): (r: string)
    ensures StartsWith(r, Prefix(kind))
    ensures EndsWith(r, " " + text)
    ensures |r| == |Prefix(kind)| + |CreateTag(component)| + 1 + |text|
  {
    var r := Prefix(kind) + CreateTag(component) + " " + text;
    assert r[|r| - |" " + text|..] == " " + text;
    r
  }

  /** The output channel as the list of lines appended to it. */
  class Channel {
    var lines: seq<string>

    constructor()
      ensures lines == []
    {
      lines := [];
    }

    /** `start`: "[Start]<tag> <operation>". */
    method Start(operation: string, component: Option<string>)
      modifies this
      ensures lines == old(lines) + [TaggedLine(StartLine, component, operation)]
    {
      lines := lines + [TaggedLine(StartLine, component, operation)];
    }

    /** `end`: "[Done]<tag> <operation> successfully". */
    method End(operation: string, component: Option<string>)
      modifies this
      ensures lines == old(lines) + [TaggedLine(DoneLine, component, FormatMessage(operation, None))]
    {
      lines := lines + [TaggedLine(DoneLine, component, FormatMessage(operation, None))];
    }

    /** `info`: the message alone. */
    method Info(message: string)
      modifies this
      ensures lines == old(lines) + [message]
    {
      lines := lines + [message];
    }

    /** `warn`: "[Warn]<tag> <message>". */
    method Warn(message: string, component: Option<string>)
      modifies this
      ensures lines == old(lines) + [TaggedLine(WarnLine, component, message)]
    {
      lines := lines + [TaggedLine(WarnLine, component, message)];
    }

    /** `error`: "[Error]<tag> " and the failure message, or the operation alone without an error. */
    method Error(operation: string, component: Option<string>, error: Option<string>)
      modifies this
      ensures lines == old(lines) + [TaggedLine(ErrorLine, component, if error.Some? then FormatMessage(operation, error) else operation)]
    {
      var message := if error.Some? then FormatMessage(operation, error) else operation;
      lines := lines + [TaggedLine(ErrorLine, component, message)];
    }
  }

  /** Without a component the start line is "[Start] " and the operation. */
  lemma StartLineUntagged(operation: string)
    ensures TaggedLine(StartLine, None, operation) == "[Start] " + operation
  {
  }
}
