/**
 * The connection-string builder of the Digital Twin and Plug and Play
 * repository clients: `DigitalTwinConnectionStringBuilder`
 * (src/DigitalTwin/DigitalTwinApi/DigitalTwinConnectionStringBuilder.ts) and
 * `PnPConnectionStringBuilder` (src/pnp/pnp-api/PnPConnectionStringBuilder.ts)
 * are the same class under two names and are modelled once.
 */
module ConnectionStringBuilder {
  import opened Wrappers
  import opened Strings
  import opened ConnectionString

  /** The three patterns `Validate` checks values against. */
  datatype Pattern = HostNamePattern | SharedAccessKeyNamePattern | SharedAccessKeyValuePattern

  predicate Matches(pattern: Pattern, value: string)
  {
    match pattern
    case HostNamePattern => IsHostName(value)
    case SharedAccessKeyNamePattern => IsKeyName(value)
    case SharedAccessKeyValuePattern => IsKeyValue(value)
  }

  const EmptyMessage := "The connection string should not be empty"
  const MissingHostNameMessage := "Unable to find the host name in the connection string."
  const MissingRepositoryIdMessage := "Unable to find the repositoryId in the connection string."

  function InvalidPropertyMessage(propertyName: string): string
  {
    "The connection string is invalid for property " + propertyName
  }

  /**
   * `ValidateFormat`: an empty value is not checked; any other value must
   * match its pattern, or the error names the property.
   */
  function ValidateFormat(value: string, propertyName: string, pattern: Pattern): (r: Option<string>)
    ensures r.None? <==> value == "" || Matches(pattern, value)
    ensures r.Some? ==> r.value == InvalidPropertyMessage(propertyName)
  {
    if value != "" && !Matches(pattern, value) then Some(InvalidPropertyMessage(propertyName)) else None
  }

  /** The builder and the four properties `Parse` fills in. */
  class ConnectionStringBuilder {
    var hostName: string
    var repositoryId: string
    var sharedAccessKeyName: string
    var sharedAccessKeyValue: string

    constructor()
      ensures hostName == "" && repositoryId == "" && sharedAccessKeyName == "" && sharedAccessKeyValue == ""
    {
      hostName := "";
      repositoryId := "";
      sharedAccessKeyName := "";
      sharedAccessKeyValue := "";
    }

    /**
     * `Validate`: the host name, the key name and the key value in that
     * order; the first one that is present and does not match is the
     * error. The repository id is not checked.
     */
    function Validate(): (r: Option<string>)
      reads this
      ensures r.None? <==>
        (hostName == "" || IsHostName(hostName)) &&
        (sharedAccessKeyName == "" || IsKeyName(sharedAccessKeyName)) &&
        (sharedAccessKeyValue == "" || IsKeyValue(sharedAccessKeyValue))
      ensures hostName != "" && !IsHostName(hostName) ==> r == Some(InvalidPropertyMessage(HostNamePropertyName))
      ensures r.Some? ==> r.value in {InvalidPropertyMessage(HostNamePropertyName),
        InvalidPropertyMessage(SharedAccessKeyNamePropertyName), InvalidPropertyMessage(SharedAccessKeyValuePropertyName)}
    {
      var host := ValidateFormat(hostName, HostNamePropertyName, HostNamePattern);
      if host.Some? then host
      else
        var keyName := ValidateFormat(sharedAccessKeyName, SharedAccessKeyNamePropertyName, SharedAccessKeyNamePattern);
        if keyName.Some? then keyName
        else ValidateFormat(sharedAccessKeyValue, SharedAccessKeyValuePropertyName, SharedAccessKeyValuePattern)
    }

    /**
     * `Parse`: an empty text and a malformed segment fail before any
     * property changes. Otherwise each of the four known names present in
     * the dictionary sets its property (the last segment with that name
     * wins), other names are ignored, and a property whose name is absent
     * keeps its value. Then the host name and the repository id must be
     * non-empty, and `Validate` has the last word. The error is returned
     * instead of thrown.
     */
    method Parse(connectionString: string) returns (error: Option<string>)
      modifies this
      ensures connectionString == "" ==> error == Some(EmptyMessage) && unchanged(this)
      ensures connectionString != "" && Items(Split(connectionString, ValuePairDelimiter)).Err? ==>
        error == Some(Items(Split(connectionString, ValuePairDelimiter)).error) && unchanged(this)
      ensures connectionString != "" && Items(Split(connectionString, ValuePairDelimiter)).Ok? ==>
        var segments := Split(connectionString, ValuePairDelimiter);
        hostName == ValueOr(segments, HostNamePropertyName, old(hostName)) &&
        repositoryId == ValueOr(segments, RepositoryIdPropertyName, old(repositoryId)) &&
        sharedAccessKeyName == ValueOr(segments, SharedAccessKeyNamePropertyName, old(sharedAccessKeyName)) &&
        sharedAccessKeyValue == ValueOr(segments, SharedAccessKeyValuePropertyName, old(sharedAccessKeyValue)) &&
        error == (if hostName == "" then Some(MissingHostNameMessage)
                  else if repositoryId == "" then Some(MissingRepositoryIdMessage)
                  else Validate())
    {
      if connectionString == "" {
        return Some(EmptyMessage);
      }
      var pairs := Split(connectionString, ValuePairDelimiter);
      var collected := CollectItems(pairs);
      if collected.Err? {
        return Some(collected.error);
      }
      var items := collected.value;
      // The keys of `items` are walked in any order; each known key sets
      // its own property, so the order does not matter.
      ItemsLastValue(pairs, HostNamePropertyName);
      ItemsLastValue(pairs, RepositoryIdPropertyName);
      ItemsLastValue(pairs, SharedAccessKeyNamePropertyName);
      ItemsLastValue(pairs, SharedAccessKeyValuePropertyName);
      if HostNamePropertyName in items {
        hostName := items[HostNamePropertyName];
      }
      if RepositoryIdPropertyName in items {
        repositoryId := items[RepositoryIdPropertyName];
      }
      if SharedAccessKeyNamePropertyName in items {
        sharedAccessKeyName := items[SharedAccessKeyNamePropertyName];
      }
      if SharedAccessKeyValuePropertyName in items {
        sharedAccessKeyValue := items[SharedAccessKeyValuePropertyName];
      }
      if hostName == "" {
        return Some(MissingHostNameMessage);
      } else if repositoryId == "" {
        return Some(MissingRepositoryIdMessage);
      }
      error := Validate();
    }
  }

  /** The value of the last segment named `name`, or `otherwise` when there is none. */
  function ValueOr(segments: seq<string>, name: string, otherwise: string): string
  {
    match LastValue(segments, name)
    case Some(v) => v
    case None => otherwise
  }

  /** A value found in a segment is never empty, so a named host name is always present. */
  lemma {:induction false} LastValueNonEmpty(segments: seq<string>, name: string)
    requires LastValue(segments, name).Some?
    ensures LastValue(segments, name).value != ""
    decreases |segments|
  {
    var pair := SplitPair(segments[|segments| - 1]);
    if !(pair.Some? && pair.value.0 == name) {
      LastValueNonEmpty(segments[..|segments| - 1], name);
    }
  }

  /** A later segment with the same name overrides an earlier one. */
  lemma LastValueOverrides(segments: seq<string>, name: string, value: string)
    requires name != "" && value != "" && ValuePairSeparator !in name
    ensures LastValue(segments + [name + [ValuePairSeparator] + value], name) == Some(value)
  {
    SplitPairFormat(name, value);
    assert (segments + [name + [ValuePairSeparator] + value])[|segments|] == name + [ValuePairSeparator] + value;
  }
}
