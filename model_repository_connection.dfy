/**
 * `ModelRepositoryConnection.parse` and `validate` of
 * src/DigitalTwin/pnp/src/modelRepository/modelRepositoryConnection.ts: a
 * connection string of exactly four "name=value" properties becomes a
 * connection whose four fields are all present and well formed.
 */
module ModelRepositoryConnection {
  import opened Wrappers
  import opened Strings
  import opened ConnectionString

  /** The four read-only fields of a connection (its expiry time is not modelled). */
  datatype Connection = Connection(hostName: string, repositoryId: string, sharedAccessKeyName: string, sharedAccessKey: string)

  const PropertyCount := 4

  /** `Constants.NOT_EMPTY_MSG` and `Constants.CONNECTION_STRING_INVALID_FORMAT_MSG`. */
  const NotEmptyMessage := "could not be empty"
  const InvalidFormatMessage := "Invalid connection string format"

  /**
   * The messages of `validate`. Three of them are template literals
   * continued with a backslash, so the eight spaces that indent their
   * next line are part of the message.
   */
  function PropertyMessage(propertyName: string, continued: bool): string
  {
    InvalidFormatMessage + " on " + (if continued then "        " else "") + "property " + propertyName
  }

  /** `map[name]`: a name that no property gave reads as `undefined`, which is falsy like "". */
  function Lookup(items: map<string, string>, name: string): string
  {
    if name in items then items[name] else ""
  }

  /** The connection the constructor makes from the dictionary. */
  function FromItems(items: map<string, string>): Connection
  {
    Connection(Lookup(items, HostNamePropertyName), Lookup(items, RepositoryIdPropertyName),
      Lookup(items, SharedAccessKeyNamePropertyName), Lookup(items, SharedAccessKeyValuePropertyName))
  }

  /**
   * `validate`: host name, repository id, key name and key in that order;
   * the first that is missing or (for the two with a pattern) does not
   * match is the error.
   */
  function Validate(c: Connection): (r: Option<string>)
    ensures r.None? <==>
      IsHostName(c.hostName) && c.repositoryId != "" && IsKeyName(c.sharedAccessKeyName) && c.sharedAccessKey != ""
    ensures !IsHostName(c.hostName) ==> r == Some(PropertyMessage(HostNamePropertyName, false))
  {
    if c.hostName == "" || !IsHostName(c.hostName) then Some(PropertyMessage(HostNamePropertyName, false))
    else if c.repositoryId == "" then Some(PropertyMessage(RepositoryIdPropertyName, true))
    else if c.sharedAccessKeyName == "" || !IsKeyName(c.sharedAccessKeyName) then Some(PropertyMessage(SharedAccessKeyNamePropertyName, true))
    else if c.sharedAccessKey == "" then Some(PropertyMessage(SharedAccessKeyValuePropertyName, true))
    else None
  }

  /**
   * `parse`, with the error returned instead of thrown: the empty text,
   * a property count other than four, a malformed property, and then
   * whatever `validate` finds.
   */
  method Parse(connectionString: string) returns (r: Result<Connection>)
    ensures connectionString == "" ==> r == Err("Connection string " + NotEmptyMessage)
    ensures connectionString != "" && |Split(connectionString, ValuePairDelimiter)| != PropertyCount ==>
      r == Err(InvalidFormatMessage)
    ensures r.Ok? <==>
      connectionString != "" &&
      var properties := Split(connectionString, ValuePairDelimiter);
      |properties| == PropertyCount && Items(properties).Ok? && Validate(FromItems(Items(properties).value)).None?
    ensures r.Ok? ==> r.value == FromItems(Items(Split(connectionString, ValuePairDelimiter)).value)
    ensures r.Ok? ==>
      IsHostName(r.value.hostName) && r.value.repositoryId != "" &&
      IsKeyName(r.value.sharedAccessKeyName) && r.value.sharedAccessKey != ""
  {
    if connectionString == "" {
      return Err("Connection string " + NotEmptyMessage);
    }
    var properties := Split(connectionString, ValuePairDelimiter);
    if |properties| != PropertyCount {
      return Err(InvalidFormatMessage);
    }
    var collected := CollectItems(properties);
    if collected.Err? {
      return Err(InvalidFormatMessage);
    }
    var connection := FromItems(collected.value);
    var problem := Validate(connection);
    if problem.Some? {
      return Err(problem.value);
    }
    r := Ok(connection);
  }

  /** The four properties of a connection, by name. */
  function Pairs(c: Connection): seq<(string, string)>
  {
    [(HostNamePropertyName, c.hostName), (RepositoryIdPropertyName, c.repositoryId),
     (SharedAccessKeyNamePropertyName, c.sharedAccessKeyName), (SharedAccessKeyValuePropertyName, c.sharedAccessKey)]
  }

  /** The four properties of a formatted connection. */
  function Properties(c: Connection): seq<string>
  {
    Segments(Pairs(c))
  }

  /** The connection string with the four properties in their usual order. */
  function Format(c: Connection): string
  {
    Join(Properties(c), ";")
  }

  /**
   * Reading back a formatted connection: the dictionary holds its four
   * fields, so a valid connection whose fields have no ';' survives the
   * round trip through `parse`.
   */
  lemma FormatItems(c: Connection)
    requires ValuePairDelimiter !in c.hostName + c.repositoryId + c.sharedAccessKeyName + c.sharedAccessKey
    requires Validate(c).None?
    ensures var properties := Split(Format(c), ValuePairDelimiter);
      |properties| == PropertyCount && Items(properties).Ok? && FromItems(Items(properties).value) == c
  {
    FormatSplit(c);
    PropertiesItems(c);
  }

  /** Splitting a formatted connection gives its four properties. */
  lemma FormatSplit(c: Connection)
    requires ValuePairDelimiter !in c.hostName + c.repositoryId + c.sharedAccessKeyName + c.sharedAccessKey
    ensures Split(Format(c), ValuePairDelimiter) == Properties(c)
  {
    NoDelimiter(HostNamePropertyName, c.hostName, c);
    NoDelimiter(RepositoryIdPropertyName, c.repositoryId, c);
    NoDelimiter(SharedAccessKeyNamePropertyName, c.sharedAccessKeyName, c);
    NoDelimiter(SharedAccessKeyValuePropertyName, c.sharedAccessKey, c);
    SplitJoin(Properties(c), ValuePairDelimiter);
  }

  /** The dictionary of the four properties holds the four fields. */
  lemma PropertiesItems(c: Connection)
    requires Validate(c).None?
    ensures Items(Properties(c)).Ok? && FromItems(Items(Properties(c)).value) == c
  {
    var pairs := Pairs(c);
    assert WellFormedPairs(pairs) by {
      KnownNames();
    }
    assert forall i, k :: 0 <= i < k < |pairs| ==> pairs[i].0 != pairs[k].0 by {
      assert |pairs[0].0| == 8 && |pairs[1].0| == 12 && |pairs[2].0| == 19 && |pairs[3].0| == 15;
    }
    var segments := Properties(c);
    SegmentsLastValue(pairs, 0);
    SegmentsLastValue(pairs, 1);
    SegmentsLastValue(pairs, 2);
    SegmentsLastValue(pairs, 3);
    ItemsLastValue(segments, HostNamePropertyName);
    ItemsLastValue(segments, RepositoryIdPropertyName);
    ItemsLastValue(segments, SharedAccessKeyNamePropertyName);
    ItemsLastValue(segments, SharedAccessKeyValuePropertyName);
  }

  /** The four property names hold no '=' or ';'. */
  lemma KnownNames()
    ensures ValuePairSeparator !in HostNamePropertyName && ValuePairDelimiter !in HostNamePropertyName
    ensures ValuePairSeparator !in RepositoryIdPropertyName && ValuePairDelimiter !in RepositoryIdPropertyName
    ensures ValuePairSeparator !in SharedAccessKeyNamePropertyName && ValuePairDelimiter !in SharedAccessKeyNamePropertyName
    ensures ValuePairSeparator !in SharedAccessKeyValuePropertyName && ValuePairDelimiter !in SharedAccessKeyValuePropertyName
  {
  }

  /** A property built from a known name and a field without ';' holds no ';'. */
  lemma NoDelimiter(name: string, value: string, c: Connection)
    requires ValuePairDelimiter !in name && ValuePairDelimiter !in c.hostName + c.repositoryId + c.sharedAccessKeyName + c.sharedAccessKey
    requires value in {c.hostName, c.repositoryId, c.sharedAccessKeyName, c.sharedAccessKey}
    ensures ValuePairDelimiter !in name + "=" + value
  {
    var all := c.hostName + c.repositoryId + c.sharedAccessKeyName + c.sharedAccessKey;
    forall k | 0 <= k < |value| ensures value[k] != ValuePairDelimiter {
      if value == c.hostName {
        assert value[k] == all[k];
      } else if value == c.repositoryId {
        assert value[k] == all[|c.hostName| + k];
      } else if value == c.sharedAccessKeyName {
        assert value[k] == all[|c.hostName| + |c.repositoryId| + k];
      } else {
        assert value[k] == all[|c.hostName| + |c.repositoryId| + |c.sharedAccessKeyName| + k];
      }
    }
  }
}
