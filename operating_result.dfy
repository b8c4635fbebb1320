/**
 * `OperatingResult` of src/OperatingResult.ts: the outcome of a command,
 * the outcomes of the steps before it kept on a stack, and the flat
 * telemetry record made from both.
 */
module OperatingResult {
  import opened Wrappers
  import opened Strings

  datatype ResultType = Null | Succeeded | Failed | Canceled

  /** `OperatingResultType[result]`: the enum member's name. */
  function ResultName(result: ResultType): (r: string)
    ensures r != ""
  {
    match result
    case Null => "Null"
    case Succeeded => "Succeeded"
    case Failed => "Failed"
    case Canceled => "Canceled"
  }

  /** One saved triple of the stack. */
  datatype Entry = Entry(operator: string, result: ResultType, details: Option<string>)

  /** A `string|undefined` that JavaScript treats as true: present and not empty. */
  predicate Truthy(details: Option<string>)
  {
    details.Some? && details.value != ""
  }

  const MissingResultMessage := "Result is missing. Availbale results are Success, Failed and Canceled."

  /**
   * A result argument that passes `if (!result)`: given, and not `Null`,
   * whose enum value 0 is falsy.
   */
  predicate IsGivenResult(result: Option<ResultType>)
  {
    result.Some? && result.value != Null
  }

  class OperatingResult {
    var operator: string
    var result: ResultType
    var details: Option<string>
    var stack: seq<Entry>

    /** The current triple. */
    function Current(): Entry
      reads this
    {
      Entry(operator, result, details)
    }

    /** A missing (or `Null`) result becomes `Null`; the stack starts empty. */
    constructor(operator: string, result: Option<ResultType>, details: Option<string>)
      ensures this.operator == operator && this.details == details && stack == []
      ensures result.Some? ==> this.result == result.value
      ensures result.None? ==> this.result == Null
    {
      this.operator := operator;
      this.result := if result.Some? then result.value else Null;
      this.details := details;
      this.stack := [];
    }

    /** `update(details)`: only the details change. */
    method UpdateDetails(details: string)
      modifies this
      ensures this.details == Some(details)
      ensures operator == old(operator) && result == old(result) && stack == old(stack)
    {
      this.details := Some(details);
    }

    /** `update(result, details?)`: the result changes; absent or empty details keep the old ones. */
    method UpdateResult(result: ResultType, details: Option<string>)
      modifies this
      ensures this.result == result
      ensures this.details == if Truthy(details) then details else old(this.details)
      ensures operator == old(operator) && stack == old(stack)
    {
      this.result := result;
      if Truthy(details) {
        this.details := details;
      }
    }

    /**
     * `push(operatingResult)`: the current triple is saved on the stack,
     * the other result becomes the current one, and its stack follows. When
     * the other result is this one, its stack already holds the saved
     * triple and is appended as it is then.
     */
    method PushResult(other: OperatingResult)
      modifies this
      ensures Current() == old(other.Current())
      ensures other != this ==> stack == old(stack) + [old(Current())] + old(other.stack)
      ensures other == this ==> stack == old(stack) + [old(Current())] + old(stack) + [old(Current())]
    {
      stack := stack + [Current()];
      operator := other.operator;
      result := other.result;
      details := other.details;
      stack := stack + other.stack;
    }

    /**
     * `push(operator, result, details?)`: the current triple is saved, and
     * then a missing result is an error, after the stack has already grown.
     */
    method PushNamed(operator: string, result: Option<ResultType>, details: Option<string>) returns (error: Option<string>)
      modifies this
      ensures stack == old(stack) + [old(Current())]
      ensures error.Some? <==> !IsGivenResult(result)
      ensures error.Some? ==> error.value == MissingResultMessage && Current() == old(Current())
      ensures error.None? ==> Current() == Entry(operator, result.value, details)
    {
      stack := stack + [Current()];
      if !IsGivenResult(result) {
        return Some(MissingResultMessage);
      }
      this.operator := operator;
      this.result := result.value;
      this.details := details;
      error := None;
    }

    /**
     * `append(operatingResult)`: the current triple stays; the other
     * result's triple and then its stack are added to the stack.
     */
    method AppendResult(other: OperatingResult)
      modifies this
      ensures Current() == old(Current())
      ensures other != this ==> stack == old(stack) + [old(other.Current())] + old(other.stack)
      ensures other == this ==> stack == old(stack) + [old(Current())] + old(stack) + [old(Current())]
    {
      stack := stack + [other.Current()];
      stack := stack + other.stack;
    }

    /** `append(operator, result, details?)`: checked first, so an error changes nothing. */
    method AppendNamed(operator: string, result: Option<ResultType>, details: Option<string>) returns (error: Option<string>)
      modifies this
      ensures Current() == old(Current())
      ensures error.Some? <==> !IsGivenResult(result)
      ensures error.Some? ==> error.value == MissingResultMessage && stack == old(stack)
      ensures error.None? ==> stack == old(stack) + [Entry(operator, result.value, details)]
    {
      if !IsGivenResult(result) {
        return Some(MissingResultMessage);
      }
      stack := stack + [Entry(operator, result.value, details)];
      error := None;
    }

    predicate IsSucceeded()
      reads this
    {
      result == Succeeded
    }

    predicate IsCanceled()
      reads this
    {
      result == Canceled
    }

    /**
     * The `telemetry` getter: walks the stack, recording each entry under
     * its index and remembering the last truthy details, then adds the
     * current details or, failing them, those last details.
     */
    method Telemetry() returns (data: map<string, string>)
      ensures data == TelemetryOf(operator, result, details, stack)
    {
      data := map["operator" := operator, "result" := ResultName(result)];
      var lastDetails: Option<string> := None;
      for index := 0 to |stack|
        invariant data == map["operator" := operator, "result" := ResultName(result)] + StackData(stack[..index])
        invariant lastDetails == LastDetails(stack[..index])
      {
        assert stack[..index + 1][..index] == stack[..index];
        var item := stack[index];
        data := data[StackKey(index, "operator") := item.operator];
        data := data[StackKey(index, "result") := ResultName(item.result)];
        if Truthy(item.details) {
          data := data[StackKey(index, "details") := item.details.value];
          lastDetails := item.details;
        }
      }
      assert stack[..|stack|] == stack;
      if Truthy(details) {
        data := data["details" := details.value];
      } else if lastDetails.Some? {
        data := data["details" := lastDetails.value];
      }
    }
  }

  /** The key `stack/${index}/${field}`. */
  function StackKey(index: nat, field: string): string
  {
    "stack/" + NatToString(index) + "/" + field
  }

  /** The keys the stack entries contribute. */
  function StackData(entries: seq<Entry>): map<string, string>
  {
    if |entries| == 0 then map[]
    else
      var index := |entries| - 1;
      var item := entries[index];
      var data := StackData(entries[..index])[StackKey(index, "operator") := item.operator][StackKey(index, "result") := ResultName(item.result)];
      if Truthy(item.details) then data[StackKey(index, "details") := item.details.value] else data
  }

  /** The details of the last entry that has truthy ones. */
  function LastDetails(entries: seq<Entry>): (r: Option<string>)
    ensures r.Some? ==> r.value != ""
  {
    if |entries| == 0 then None
    else if Truthy(entries[|entries| - 1].details) then entries[|entries| - 1].details
    else LastDetails(entries[..|entries| - 1])
  }

  /** The telemetry record of a result. */
  function TelemetryOf(operator: string, result: ResultType, details: Option<string>, stack: seq<Entry>): map<string, string>
  {
    var data := map["operator" := operator, "result" := ResultName(result)] + StackData(stack);
    if Truthy(details) then data["details" := details.value]
    else if LastDetails(stack).Some? then data["details" := LastDetails(stack).value]
    else data
  }

  /** The field names a stack key can end with. */
  predicate IsField(field: string)
  {
    field == "operator" || field == "result" || field == "details"
  }

  /** Every key of the stack data is a stack key. */
  lemma {:induction false} StackDataKeys(entries: seq<Entry>, key: string)
    requires key in StackData(entries)
    ensures exists index: nat, field :: index < |entries| && IsField(field) && key == StackKey(index, field)
    decreases |entries|
  {
    var index := |entries| - 1;
    if key !in {StackKey(index, "operator"), StackKey(index, "result"), StackKey(index, "details")} {
      StackDataKeys(entries[..index], key);
    }
  }

  /** A stack key never equals one of the three top-level keys. */
  lemma StackKeyNotTopLevel(index: nat, field: string)
    ensures StackKey(index, field) != "operator" && StackKey(index, field) != "result" && StackKey(index, field) != "details"
  {
    assert StackKey(index, field)[0] == 's';
  }

  /** Different indices or fields give different keys. */
  lemma StackKeyInjective(i: nat, f: string, j: nat, g: string)
    requires IsField(f) && IsField(g)
    ensures StackKey(i, f) == StackKey(j, g) ==> i == j && f == g
  {
    var a := NatToString(i);
    var b := NatToString(j);
    var k1 := StackKey(i, f);
    var k2 := StackKey(j, g);
    if k1 == k2 {
      var m := if |a| < |b| then |a| else |b|;
      SlashAfterIndex(i, f, m);
      SlashAfterIndex(j, g, m);
      assert |a| == |b|;
      assert k1[6..6 + |a|] == a && k2[6..6 + |b|] == b;
      NatToStringInjective(i, j);
      assert k1[7 + |a|..] == f && k2[7 + |b|..] == g;
    }
  }

  /** In a stack key the index digits are followed by the first '/' after "stack/". */
  lemma SlashAfterIndex(index: nat, field: string, m: nat)
    requires m <= |NatToString(index)|
    ensures (StackKey(index, field)[6 + m] == '/') == (m == |NatToString(index)|)
  {
    var a := NatToString(index);
    if m < |a| {
      assert StackKey(index, field)[6 + m] == a[m];
    }
  }

  /** Each stack entry can be read back from the stack data under its index. */
  lemma {:induction false} StackDataEntries(entries: seq<Entry>, i: nat)
    requires i < |entries|
    ensures StackKey(i, "operator") in StackData(entries) && StackData(entries)[StackKey(i, "operator")] == entries[i].operator
    ensures StackKey(i, "result") in StackData(entries) && StackData(entries)[StackKey(i, "result")] == ResultName(entries[i].result)
    ensures (StackKey(i, "details") in StackData(entries)) == Truthy(entries[i].details)
    ensures Truthy(entries[i].details) ==> StackData(entries)[StackKey(i, "details")] == entries[i].details.value
    decreases |entries|
  {
    var index := |entries| - 1;
    if i < index {
      StackDataEntries(entries[..index], i);
      StackKeyInjective(i, "operator", index, "operator");
      StackKeyInjective(i, "operator", index, "result");
      StackKeyInjective(i, "operator", index, "details");
      StackKeyInjective(i, "result", index, "operator");
      StackKeyInjective(i, "result", index, "result");
      StackKeyInjective(i, "result", index, "details");
      StackKeyInjective(i, "details", index, "operator");
      StackKeyInjective(i, "details", index, "result");
      StackKeyInjective(i, "details", index, "details");
    } else {
      StackKeyInjective(i, "operator", i, "result");
      StackKeyInjective(i, "operator", i, "details");
      StackKeyInjective(i, "result", i, "details");
      if StackKey(i, "details") in StackData(entries[..index]) {
        StackDataKeys(entries[..index], StackKey(i, "details"));
        var j: nat, field :| j < index && IsField(field) && StackKey(i, "details") == StackKey(j, field);
        StackKeyInjective(i, "details", j, field);
      }
    }
  }

  /**
   * The telemetry record names the operator and result, records every
   * stack entry under its index, and carries the current details or else
   * the last details of the stack.
   */
  lemma TelemetryFields(operator: string, result: ResultType, details: Option<string>, stack: seq<Entry>)
    ensures var data := TelemetryOf(operator, result, details, stack);
      data["operator"] == operator && data["result"] == ResultName(result) &&
      ("details" in data <==> Truthy(details) || LastDetails(stack).Some?) &&
      (Truthy(details) ==> data["details"] == details.value) &&
      (!Truthy(details) && LastDetails(stack).Some? ==> data["details"] == LastDetails(stack).value)
  {
    var data := StackData(stack);
    forall key | key in data ensures key != "operator" && key != "result" && key != "details" {
      StackDataKeys(stack, key);
      var index: nat, field :| index < |stack| && IsField(field) && key == StackKey(index, field);
      StackKeyNotTopLevel(index, field);
    }
  }

  /** Every stack entry is in the telemetry record under its own index. */
  lemma TelemetryStack(operator: string, result: ResultType, details: Option<string>, stack: seq<Entry>, i: nat)
    requires i < |stack|
    ensures var data := TelemetryOf(operator, result, details, stack);
      StackKey(i, "operator") in data && data[StackKey(i, "operator")] == stack[i].operator &&
      StackKey(i, "result") in data && data[StackKey(i, "result")] == ResultName(stack[i].result) &&
      (Truthy(stack[i].details) ==> StackKey(i, "details") in data && data[StackKey(i, "details")] == stack[i].details.value)
  {
    StackDataEntries(stack, i);
    StackKeyNotTopLevel(i, "details");
  }
}
