/** The databases data source (internal/service/databases): the names the
    server lists, kept when they match the name filter, each turned into an
    element with its Id. Unlike the collections listing, nothing is excluded
    besides what the filter drops. */
module DatabasesListing {
  import opened Results
  import opened Diagnostics
  import opened Sequences
  import opened ResourceIds

  /** One element of the `databases` list attribute. */
  datatype DatabaseElement = DatabaseElement(id: string, name: string)

  /** `DatabasesDataSourceModel`; a null name filter is `None`. */
  datatype DatabasesDataSourceModel = DatabasesDataSourceModel(name: Option<string>, databases: seq<DatabaseElement>)

  /** `!(Name.IsNull() || Name.ValueString() == "")` */
  predicate HasFilter(name: Option<string>) {
    name.Some? && name.value != ""
  }

  function Element(name: string): DatabaseElement {
    DatabaseElement(DatabasePath(name), name)
  }

  /** The elements of names, in order. */
  function Elements(names: seq<string>): (r: seq<DatabaseElement>)
    ensures |r| == |names|
    ensures forall i :: 0 <= i < |names| ==> r[i] == Element(names[i])
  {
    if names == [] then [] else Elements(names[..|names| - 1]) + [Element(names[|names| - 1])]
  }

  /** The names that become elements: all of them without a filter,
      otherwise those the pattern matches, in order. */
  function Listed(names: seq<string>, name: Option<string>, matches: string -> bool): seq<string> {
    if HasFilter(name) then Filter(names, matches) else names
  }

  /** What `dataSourceRead` computes from the listing and the compiled name
      filter (compiled even when there is no filter). */
  function ReadResult(data: DatabasesDataSourceModel, listing: Result<seq<string>>,
                      compile: string -> Result<string -> bool>): (r: (DatabasesDataSourceModel, seq<Diagnostic>))
    ensures r.0 == data.(databases := r.0.databases)
    ensures r.1 != [] ==> r.0 == data
    ensures listing.Err? ==> r == (data, [Diagnostic(MongoClientError, listing.message)])
    ensures listing.Ok? && compile(data.name.GetOr("")).Err? ==>
      r == (data, [Diagnostic(UnexpectedError, compile(data.name.GetOr("")).message)])
    ensures listing.Ok? && compile(data.name.GetOr("")).Ok? ==>
      r.1 == [] && r.0.databases == Elements(Listed(listing.value, data.name, compile(data.name.GetOr("")).value))
  {
    match listing
    case Err(m) => (data, [Diagnostic(MongoClientError, m)])
    case Ok(names) =>
      match compile(data.name.GetOr(""))
      case Err(m) => (data, [Diagnostic(UnexpectedError, m)])
      case Ok(matches) => (data.(databases := Elements(Listed(names, data.name, matches))), [])
  }

  /** A name is listed exactly when the server lists it and it matches the
      filter when there is one. */
  lemma ListedMember(names: seq<string>, name: Option<string>, matches: string -> bool, x: string)
    ensures x in Listed(names, name, matches) <==> x in names && (HasFilter(name) ==> matches(x))
  {
    if HasFilter(name) {
      FilterMember(names, matches, x);
    }
  }

  /** The listing is taken in order. */
  lemma ListedConcat(a: seq<string>, b: seq<string>, name: Option<string>, matches: string -> bool)
    ensures Listed(a + b, name, matches) == Listed(a, name, matches) + Listed(b, name, matches)
  {
    if HasFilter(name) {
      FilterConcat(a, b, matches);
    }
  }

  /** On success every element is a listed database with the Id
      `databases/<name>`. */
  lemma ElementsWellFormed(data: DatabasesDataSourceModel, listing: Result<seq<string>>,
                           compile: string -> Result<string -> bool>, e: DatabaseElement)
    requires ReadResult(data, listing, compile).1 == []
    requires e in ReadResult(data, listing, compile).0.databases
    ensures e.name in listing.value && e.id == DatabasePath(e.name)
  {
    var matches := compile(data.name.GetOr("")).value;
    var listed := Listed(listing.value, data.name, matches);
    var es := Elements(listed);
    var i :| 0 <= i < |es| && es[i] == e;
    assert listed[i] in listed;
    ListedMember(listing.value, data.name, matches, listed[i]);
  }

  /** `dataSourceRead`: the two appending loops of the source, the
      filtering one as `KeepMatching`. */
  method DataSourceRead(data: DatabasesDataSourceModel, listing: Result<seq<string>>,
                        compile: string -> Result<string -> bool>)
    returns (data': DatabasesDataSourceModel, diags: seq<Diagnostic>)
    ensures (data', diags) == ReadResult(data, listing, compile)
  {
    if listing.Err? {
      return data, [Diagnostic(MongoClientError, listing.message)];
    }
    var names := listing.value;
    var pattern := compile(data.name.GetOr(""));
    if pattern.Err? {
      return data, [Diagnostic(UnexpectedError, pattern.message)];
    }
    var matches := pattern.value;

    var matched: seq<string>;
    var hasFilter := !(data.name.None? || data.name.value == "");
    if hasFilter {
      matched := KeepMatching(names, matches);
    } else {
      matched := names;
    }

    var databases: seq<DatabaseElement> := [];
    for i := 0 to |matched|
      invariant databases == Elements(matched[..i])
    {
      assert matched[..i + 1][..i] == matched[..i];
      databases := databases + [Element(matched[i])];
    }
    assert matched[..|matched|] == matched;

    return data.(databases := databases), [];
  }
}
