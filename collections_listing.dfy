/** The collections data source (internal/service/collections): the names
    the server lists for a database, kept when they match the name filter,
    without the placeholder collection, each turned into an element with its
    Id. The listing and the compiled pattern are inputs; a compiled pattern
    is its match predicate. */
module CollectionsListing {
  import opened Results
  import opened Diagnostics
  import opened Sequences
  import opened ResourceIds
  import opened MongoStore

  /** One element of the `collections` list attribute. */
  datatype CollectionElement = CollectionElement(id: string, database: string, name: string)

  /** `CollectionsDataSourceModel`; a null name filter is `None`. */
  datatype CollectionsDataSourceModel = CollectionsDataSourceModel(
    name: Option<string>, database: string, collections: seq<CollectionElement>)

  /** `!(Name.IsNull() || Name.ValueString() == "")` */
  predicate HasFilter(name: Option<string>) {
    name.Some? && name.value != ""
  }

  predicate NotPlaceholder(name: string) {
    name != PlaceholderCollectionName
  }

  /** The element of the collection name of database. */
  function Element(database: string, name: string): CollectionElement {
    CollectionElement(CollectionPath(database, name), database, name)
  }

  /** The elements of names, in order. */
  function Elements(database: string, names: seq<string>): (r: seq<CollectionElement>)
    ensures |r| == |names|
    ensures forall i :: 0 <= i < |names| ==> r[i] == Element(database, names[i])
  {
    if names == [] then [] else Elements(database, names[..|names| - 1]) + [Element(database, names[|names| - 1])]
  }

  /** The names the filter keeps: all of them without a filter, otherwise
      those the pattern matches, in order. */
  function Matched(names: seq<string>, name: Option<string>, matches: string -> bool): seq<string> {
    if HasFilter(name) then Filter(names, matches) else names
  }

  /** The names that become elements. */
  function Listed(names: seq<string>, name: Option<string>, matches: string -> bool): seq<string> {
    Filter(Matched(names, name, matches), NotPlaceholder)
  }

  /** What `dataSourceRead` computes from the listing and the compiled name
      filter (the pattern is compiled even when there is no filter, and a
      null filter compiles as ""). */
  function ReadResult(data: CollectionsDataSourceModel, listing: Result<seq<string>>,
                      compile: string -> Result<string -> bool>): (r: (CollectionsDataSourceModel, seq<Diagnostic>))
    ensures r.0 == data.(collections := r.0.collections)
    ensures r.1 != [] ==> r.0 == data
    ensures listing.Err? ==> r == (data, [Diagnostic(MongoClientError, listing.message)])
    ensures listing.Ok? && compile(data.name.GetOr("")).Err? ==>
      r == (data, [Diagnostic(UnexpectedError, compile(data.name.GetOr("")).message)])
    ensures listing.Ok? && compile(data.name.GetOr("")).Ok? ==>
      r.1 == [] && r.0.collections == Elements(data.database, Listed(listing.value, data.name, compile(data.name.GetOr("")).value))
  {
    match listing
    case Err(m) => (data, [Diagnostic(MongoClientError, m)])
    case Ok(names) =>
      match compile(data.name.GetOr(""))
      case Err(m) => (data, [Diagnostic(UnexpectedError, m)])
      case Ok(matches) => (data.(collections := Elements(data.database, Listed(names, data.name, matches))), [])
  }

  /** A name is listed exactly when the server lists it, it is not the
      placeholder, and it matches the filter when there is one. */
  lemma ListedMember(names: seq<string>, name: Option<string>, matches: string -> bool, x: string)
    ensures x in Listed(names, name, matches) <==>
      x in names && x != PlaceholderCollectionName && (HasFilter(name) ==> matches(x))
  {
    FilterMember(Matched(names, name, matches), NotPlaceholder, x);
    if HasFilter(name) {
      FilterMember(names, matches, x);
    }
  }

  /** The listing is taken in order: listing a + b lists a's names, then b's. */
  lemma ListedConcat(a: seq<string>, b: seq<string>, name: Option<string>, matches: string -> bool)
    ensures Listed(a + b, name, matches) == Listed(a, name, matches) + Listed(b, name, matches)
  {
    if HasFilter(name) {
      FilterConcat(a, b, matches);
    }
    FilterConcat(Matched(a, name, matches), Matched(b, name, matches), NotPlaceholder);
  }

  /** Without a filter, every listed name but the placeholder is kept. */
  lemma NoFilterKeepsAll(names: seq<string>, name: Option<string>, matches: string -> bool)
    requires !HasFilter(name) && PlaceholderCollectionName !in names
    ensures Listed(names, name, matches) == names
  {
    FilterAll(names, NotPlaceholder);
  }

  /** On success every element is the collection's own: its database, a name
      other than the placeholder, and the Id `databases/<db>/collections/<name>`. */
  lemma ElementsWellFormed(data: CollectionsDataSourceModel, listing: Result<seq<string>>,
                           compile: string -> Result<string -> bool>, e: CollectionElement)
    requires ReadResult(data, listing, compile).1 == []
    requires e in ReadResult(data, listing, compile).0.collections
    ensures e.database == data.database && e.name != PlaceholderCollectionName && e.name in listing.value
    ensures e.id == CollectionPath(data.database, e.name)
  {
    var matches := compile(data.name.GetOr("")).value;
    var listed := Listed(listing.value, data.name, matches);
    var es := Elements(data.database, listed);
    var i :| 0 <= i < |es| && es[i] == e;
    assert listed[i] in listed;
    ListedMember(listing.value, data.name, matches, listed[i]);
  }

  /** `dataSourceRead`: the three appending loops of the source, the two
      filtering ones as `KeepMatching`. */
  method DataSourceRead(data: CollectionsDataSourceModel, listing: Result<seq<string>>,
                        compile: string -> Result<string -> bool>)
    returns (data': CollectionsDataSourceModel, diags: seq<Diagnostic>)
    ensures (data', diags) == ReadResult(data, listing, compile)
  {
    if listing.Err? {
      return data, [Diagnostic(MongoClientError, listing.message)];
    }
    var names := listing.value;
    var pattern := compile(data.name.GetOr(""));
    if pattern.Err? {
      return data, [Diagnostic(UnexpectedError, pattern.message)];
    }
    var matches := pattern.value;

    var matched: seq<string>;
    var hasFilter := !(data.name.None? || data.name.value == "");
    if hasFilter {
      matched := KeepMatching(names, matches);
    } else {
      matched := names;
    }
    var filtered := KeepMatching(matched, NotPlaceholder);

    var collections: seq<CollectionElement> := [];
    for i := 0 to |filtered|
      invariant collections == Elements(data.database, filtered[..i])
    {
      assert filtered[..i + 1][..i] == filtered[..i];
      collections := collections + [Element(data.database, filtered[i])];
    }
    assert filtered[..|filtered|] == filtered;

    return data.(collections := collections), [];
  }
}
