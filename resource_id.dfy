/** The Terraform identifier of a resource: a path such as
    `databases/<db>/collections/<coll>/documents/<hex>`, decoded by `NewId`
    and re-emitted by `ToString` (the Go `ResourceId.String`). */
module ResourceIds {
  import opened GoStrings

  const DatabasesKeyword: string := "databases/"
  const CollectionsKeyword: string := "collections/"
  const DocumentsKeyword: string := "documents/"
  const IndexesKeyword: string := "indexes/"

  /** The keywords, in the order `NewId` removes them. */
  const Keywords: seq<string> := [DatabasesKeyword, CollectionsKeyword, DocumentsKeyword, IndexesKeyword]

  /** The four segments of an identifier; "" stands for an absent segment.
      The Go accessors `Database()`, `Collection()`, `Document()` and
      `Index()` are the field selectors. */
  datatype ResourceId = ResourceId(database: string, collection: string, document: string, index: string)

  /** What `NewId` does with a raw identifier: it returns an identifier, it
      returns the "import ID must be in the format ..." error, or it panics
      reading `parts[position]` beyond the end of the split result. */
  datatype IdResult = Parsed(id: ResourceId) | Malformed | OutOfRange(position: nat)

  predicate AllKeywords(ks: seq<string>) {
    forall k :: k in ks ==> KeywordShape(k, '/')
  }

  function Stem(k: string): string
    requires k != []
  {
    k[..|k| - 1]
  }

  /** Removes every occurrence of each keyword, one keyword after the other. */
  function StripAll(s: string, ks: seq<string>): string
    requires AllKeywords(ks)
    decreases |ks|
  {
    if ks == [] then s
    else
      assert ks[0] in ks;
      StripAll(ReplaceAll(s, ks[0], ""), ks[1..])
  }

  /** The four `strings.Replace(id, keyword, "", -1)` steps of `NewId`. */
  function Strip(raw: string): string {
    StripAll(raw, Keywords)
  }

  /** `NewId`: the keywords present anywhere in the input decide which
      segments are read, and the segments are read by position from the
      split of the stripped input (database `parts[0]`, collection
      `parts[1]`, document `parts[2]`, index `parts[3]`), whatever the
      order of the keywords. */
  function NewId(raw: string): (r: IdResult)
    ensures r.Malformed? <==> |Split(Strip(raw), '/')| > 3
    ensures r.OutOfRange? ==> 1 <= r.position <= 3 && r.position >= |Split(Strip(raw), '/')|
    ensures r.Parsed? ==> r.id.index == "" && !Contains(raw, IndexesKeyword)
    ensures r.Parsed? ==> '/' !in r.id.database && '/' !in r.id.collection && '/' !in r.id.document
    ensures r.Parsed? ==>
      (r.id.database != "" ==> Contains(raw, DatabasesKeyword)) &&
      (r.id.collection != "" ==> Contains(raw, CollectionsKeyword)) &&
      (r.id.document != "" ==> Contains(raw, DocumentsKeyword))
  {
    var parts := Split(Strip(raw), '/');
    SplitParts(Strip(raw), '/');
    if |parts| > 3 then Malformed
    else if Contains(raw, CollectionsKeyword) && |parts| <= 1 then OutOfRange(1)
    else if Contains(raw, DocumentsKeyword) && |parts| <= 2 then OutOfRange(2)
    else if Contains(raw, IndexesKeyword) then OutOfRange(3)
    else
      Parsed(ResourceId(
        if Contains(raw, DatabasesKeyword) then parts[0] else "",
        if Contains(raw, CollectionsKeyword) then parts[1] else "",
        if Contains(raw, DocumentsKeyword) then parts[2] else "",
        ""))
  }

  /** `ResourceId.String`: the non-empty segments, in the fixed order
      database, collection, document, index. */
  function ToString(x: ResourceId): (s: string)
    ensures s == "" <==> x.database == "" && x.collection == "" && x.document == "" && x.index == ""
  {
    (if x.database != "" then DatabasesKeyword + x.database else "")
    + (if x.collection != "" then "/" + CollectionsKeyword + x.collection else "")
    + (if x.document != "" then "/" + DocumentsKeyword + x.document else "")
    + (if x.index != "" then "/" + IndexesKeyword + x.index else "")
  }

  /** The paths the `CreateResourceId` helpers format. */
  function DatabasePath(d: string): string {
    DatabasesKeyword + d
  }

  function CollectionPath(d: string, c: string): string {
    DatabasePath(d) + "/" + CollectionsKeyword + c
  }

  function DocumentPath(d: string, c: string, x: string): string {
    CollectionPath(d, c) + "/" + DocumentsKeyword + x
  }

  function IndexPath(d: string, c: string, i: string): string {
    CollectionPath(d, c) + "/" + IndexesKeyword + i
  }

  /** A name that survives the codec: no '/', and no keyword is formed when
      a '/' follows it. */
  predicate PlainName(n: string) {
    forall k :: k in Keywords ==> Clean(n, k, '/')
  }

  /** An identifier that `ToString` writes and `NewId` reads back: no index
      segment, plain segments, and no gap before a present segment. */
  predicate Canonical(x: ResourceId) {
    && x.index == ""
    && PlainName(x.database) && PlainName(x.collection) && PlainName(x.document)
    && (x.collection != "" ==> x.database != "")
    && (x.document != "" ==> x.collection != "")
  }

  lemma PlainNameNoSep(n: string)
    requires PlainName(n)
    ensures '/' !in n
  {
    assert Clean(n, DatabasesKeyword, '/');
  }

  // ---------------------------------------------------------------------
  // The keywords

  lemma KeywordsShaped()
    ensures AllKeywords(Keywords)
    ensures forall k :: k in Keywords ==> k == Stem(k) + "/"
  {
  }

  /** No keyword's stem ends with another keyword's stem. */
  lemma KeywordsDistinct()
    ensures forall k, k2 :: k in Keywords && k2 in Keywords && k != k2 ==> Clean(Stem(k), k2, '/')
  {
    assert Stem(DatabasesKeyword) == "databases";
    assert Stem(CollectionsKeyword) == "collections";
    assert Stem(DocumentsKeyword) == "documents";
    assert Stem(IndexesKeyword) == "indexes";
  }

  // ---------------------------------------------------------------------
  // Strip, piece by piece

  lemma {:induction false} StripAllCleanPiece(n: string, y: string, ks: seq<string>)
    requires AllKeywords(ks) && forall k :: k in ks ==> Clean(n, k, '/')
    ensures StripAll(n + "/" + y, ks) == n + "/" + StripAll(y, ks)
    decreases |ks|
  {
    if ks != [] {
      ReplaceAllKeepsCleanPiece(n, y, ks[0], "", '/');
      StripAllCleanPiece(n, ReplaceAll(y, ks[0], ""), ks[1..]);
    }
  }

  lemma {:induction false} StripAllKeyword(k: string, y: string, ks: seq<string>)
    requires AllKeywords(ks) && k in ks && k == Stem(k) + "/"
    requires forall k2 :: k2 in ks && k2 != k ==> Clean(Stem(k), k2, '/')
    ensures StripAll(k + y, ks) == StripAll(y, ks)
    decreases |ks|
  {
    if ks[0] == k {
      ReplaceAllReplacesKeyword(k, y, "", '/');
      assert "" + ReplaceAll(y, k, "") == ReplaceAll(y, k, "");
    } else {
      ReplaceAllKeepsCleanPiece(Stem(k), y, ks[0], "", '/');
      StripAllKeyword(k, ReplaceAll(y, ks[0], ""), ks[1..]);
    }
  }

  lemma {:induction false} StripAllNoSep(n: string, ks: seq<string>)
    requires AllKeywords(ks) && '/' !in n
    ensures StripAll(n, ks) == n
    decreases |ks|
  {
    if ks != [] {
      NoSepNoKeyword(n, ks[0], '/');
      ReplaceAllAbsent(n, ks[0], "");
      StripAllNoSep(n, ks[1..]);
    }
  }

  lemma StripKeyword(k: string, y: string)
    requires k in Keywords
    ensures Strip(k + y) == Strip(y)
  {
    KeywordsShaped();
    KeywordsDistinct();
    StripAllKeyword(k, y, Keywords);
  }

  lemma StripPlain(n: string, y: string)
    requires PlainName(n)
    ensures Strip(n + "/" + y) == n + "/" + Strip(y)
  {
    KeywordsShaped();
    StripAllCleanPiece(n, y, Keywords);
  }

  lemma StripNoSep(n: string)
    requires '/' !in n
    ensures Strip(n) == n
  {
    KeywordsShaped();
    StripAllNoSep(n, Keywords);
  }

  // ---------------------------------------------------------------------
  // Contains, piece by piece

  lemma ContainsKeyword(k: string, y: string, k2: string)
    requires k in Keywords && k2 in Keywords
    ensures Contains(k + y, k2) <==> k == k2 || Contains(y, k2)
  {
    KeywordsShaped();
    KeywordsDistinct();
    ContainsSplit(k, y, k2, '/');
    if k == k2 {
      assert HasPrefix(k, k2);
    } else {
      CleanPieceHasNoKeyword(Stem(k), k2, '/');
    }
  }

  lemma ContainsPlain(n: string, y: string, k: string)
    requires PlainName(n) && k in Keywords
    ensures Contains(n + "/" + y, k) <==> Contains(y, k)
  {
    KeywordsShaped();
    ContainsAfterCleanPiece(n, y, k, '/');
  }

  lemma ContainsNoSep(n: string, k: string)
    requires '/' !in n && k in Keywords
    ensures !Contains(n, k)
  {
    KeywordsShaped();
    NoSepNoKeyword(n, k, '/');
  }

  // ---------------------------------------------------------------------
  // The identifier forms

  /** The strings ToString writes for the forms the resources use. */
  lemma ToStringPaths(d: string, c: string, x: string, i: string)
    requires d != "" && c != "" && x != "" && i != ""
    ensures ToString(ResourceId("", "", "", "")) == ""
    ensures ToString(ResourceId(d, "", "", "")) == DatabasePath(d)
    ensures ToString(ResourceId(d, c, "", "")) == CollectionPath(d, c)
    ensures ToString(ResourceId(d, c, x, "")) == DocumentPath(d, c, x)
    ensures ToString(ResourceId(d, c, "", i)) == IndexPath(d, c, i)
  {
  }

  /** Facts about the database path `databases/d`. */
  lemma DatabasePathFacts(d: string)
    requires PlainName(d)
    ensures Strip(DatabasePath(d)) == d
    ensures forall k :: k in Keywords ==> (Contains(DatabasePath(d), k) <==> k == DatabasesKeyword)
  {
    StripKeyword(DatabasesKeyword, d);
    StripNoSep(d);
    forall k | k in Keywords
      ensures Contains(DatabasePath(d), k) <==> k == DatabasesKeyword
    {
      ContainsKeyword(DatabasesKeyword, d, k);
      ContainsNoSep(d, k);
    }
  }

  /** Facts about `databases/d/collections/c` followed by a tail y that
      starts after the collection name. */
  lemma CollectionPathFacts(d: string, c: string, y: string)
    requires PlainName(d) && PlainName(c)
    ensures Strip(CollectionPath(d, c) + y) == d + "/" + Strip(c + y)
    ensures forall k :: k in Keywords ==>
      (Contains(CollectionPath(d, c) + y, k) <==> k == DatabasesKeyword || k == CollectionsKeyword || Contains(c + y, k))
  {
    var raw := CollectionPath(d, c) + y;
    assert raw == DatabasesKeyword + (d + "/" + (CollectionsKeyword + (c + y)));
    StripKeyword(DatabasesKeyword, d + "/" + (CollectionsKeyword + (c + y)));
    StripPlain(d, CollectionsKeyword + (c + y));
    StripKeyword(CollectionsKeyword, c + y);
    forall k | k in Keywords
      ensures Contains(raw, k) <==> k == DatabasesKeyword || k == CollectionsKeyword || Contains(c + y, k)
    {
      ContainsKeyword(DatabasesKeyword, d + "/" + (CollectionsKeyword + (c + y)), k);
      ContainsPlain(d, CollectionsKeyword + (c + y), k);
      ContainsKeyword(CollectionsKeyword, c + y, k);
    }
  }

  /** Facts about the tail `/kw/n` after a plain name c (kw a keyword). */
  lemma TailFacts(c: string, kw: string, n: string)
    requires PlainName(c) && '/' !in n && kw in Keywords
    ensures Strip(c + ("/" + kw + n)) == c + "/" + n
    ensures forall k :: k in Keywords ==> (Contains(c + ("/" + kw + n), k) <==> k == kw)
  {
    var raw := c + ("/" + kw + n);
    assert raw == c + "/" + (kw + n);
    StripPlain(c, kw + n);
    StripKeyword(kw, n);
    StripNoSep(n);
    forall k | k in Keywords
      ensures Contains(raw, k) <==> k == kw
    {
      ContainsPlain(c, kw + n, k);
      ContainsKeyword(kw, n, k);
      ContainsNoSep(n, k);
    }
  }

  // ---------------------------------------------------------------------
  // Properties of the codec

  /** The path forms the resources format: NewId parses `databases/d` into
      its database, and ToString re-emits the path. */
  lemma DatabasePathRoundTrip(d: string)
    requires d != "" && PlainName(d)
    ensures NewId(DatabasePath(d)) == Parsed(ResourceId(d, "", "", ""))
    ensures ToString(NewId(DatabasePath(d)).id) == DatabasePath(d)
  {
    ToStringPaths(d, "c", "x", "i");
    PlainNameNoSep(d);
    DatabasePathFacts(d);
    SplitNoSep(d, '/');
  }

  /** `databases/d/collections/c` parses into its two names and is re-emitted. */
  lemma CollectionPathRoundTrip(d: string, c: string)
    requires d != "" && c != "" && PlainName(d) && PlainName(c)
    ensures NewId(CollectionPath(d, c)) == Parsed(ResourceId(d, c, "", ""))
    ensures ToString(NewId(CollectionPath(d, c)).id) == CollectionPath(d, c)
  {
    ToStringPaths(d, c, "x", "i");
    CollectionPathParts(d, c);
  }

  /** The collection path strips to `d/c`, whose parts are the two names,
      and holds the database and collection keywords only. */
  lemma CollectionPathParts(d: string, c: string)
    requires PlainName(d) && PlainName(c)
    ensures Split(Strip(CollectionPath(d, c)), '/') == [d, c]
    ensures forall k :: k in Keywords ==>
      (Contains(CollectionPath(d, c), k) <==> k == DatabasesKeyword || k == CollectionsKeyword)
  {
    PlainNameNoSep(d);
    PlainNameNoSep(c);
    assert CollectionPath(d, c) == CollectionPath(d, c) + "";
    CollectionPathFacts(d, c, "");
    assert c + "" == c;
    StripNoSep(c);
    forall k | k in Keywords ensures !Contains(c, k) {
      ContainsNoSep(c, k);
    }
    SplitAt(d, c, '/');
    SplitNoSep(c, '/');
  }

  /** `databases/d/collections/c/documents/x` parses into its three names and
      is re-emitted. */
  lemma DocumentPathRoundTrip(d: string, c: string, x: string)
    requires d != "" && c != "" && x != "" && PlainName(d) && PlainName(c) && PlainName(x)
    ensures NewId(DocumentPath(d, c, x)) == Parsed(ResourceId(d, c, x, ""))
    ensures ToString(NewId(DocumentPath(d, c, x)).id) == DocumentPath(d, c, x)
  {
    ToStringPaths(d, c, x, "i");
    DocumentPathFacts(d, c, x);
  }

  /** The document path strips to `d/c/x`, whose parts are the three names,
      and holds the database, collection and document keywords only. */
  lemma DocumentPathFacts(d: string, c: string, x: string)
    requires PlainName(d) && PlainName(c) && PlainName(x)
    ensures Split(Strip(DocumentPath(d, c, x)), '/') == [d, c, x]
    ensures forall k :: k in Keywords ==>
      (Contains(DocumentPath(d, c, x), k) <==> k != IndexesKeyword)
  {
    PlainNameNoSep(d);
    PlainNameNoSep(c);
    PlainNameNoSep(x);
    var tail := "/" + DocumentsKeyword + x;
    assert DocumentPath(d, c, x) == CollectionPath(d, c) + tail;
    CollectionPathFacts(d, c, tail);
    TailFacts(c, DocumentsKeyword, x);
    assert d + "/" + (c + "/" + x) == d + [ '/' ] + (c + [ '/' ] + x);
    SplitAt(d, c + "/" + x, '/');
    SplitAt(c, x, '/');
    SplitNoSep(x, '/');
  }

  /** Round trip: NewId reads back exactly what ToString writes, for every
      canonical identifier ("databases/d", "databases/d/collections/c",
      "databases/d/collections/c/documents/x" and ""). */
  lemma RoundTrip(x: ResourceId)
    requires Canonical(x)
    ensures NewId(ToString(x)) == Parsed(x)
  {
    if x.database == "" {
      assert ToString(x) == "";
      StripNoSep("");
      forall k | k in Keywords ensures !Contains("", k) {
        ContainsNoSep("", k);
      }
    } else if x.collection == "" {
      DatabasePathRoundTrip(x.database);
    } else if x.document == "" {
      CollectionPathRoundTrip(x.database, x.collection);
    } else {
      DocumentPathRoundTrip(x.database, x.collection, x.document);
    }
  }

  /** Segments are read by position, not by keyword:
      `collections/c/databases/d` has c as its database and d as its
      collection. */
  lemma PositionNotKeyword(c: string, d: string)
    requires PlainName(c) && PlainName(d)
    ensures NewId(CollectionsKeyword + c + "/" + DatabasesKeyword + d) == Parsed(ResourceId(c, d, "", ""))
  {
    var raw := CollectionsKeyword + c + "/" + DatabasesKeyword + d;
    assert raw == CollectionsKeyword + (c + "/" + (DatabasesKeyword + d));
    PlainNameNoSep(c);
    PlainNameNoSep(d);
    StripKeyword(CollectionsKeyword, c + "/" + (DatabasesKeyword + d));
    StripPlain(c, DatabasesKeyword + d);
    StripKeyword(DatabasesKeyword, d);
    StripNoSep(d);
    assert Strip(raw) == c + "/" + d;
    SplitAt(c, d, '/');
    SplitNoSep(d, '/');
    forall k | k in Keywords
      ensures Contains(raw, k) <==> k == DatabasesKeyword || k == CollectionsKeyword
    {
      ContainsKeyword(CollectionsKeyword, c + "/" + (DatabasesKeyword + d), k);
      ContainsPlain(c, DatabasesKeyword + d, k);
      ContainsKeyword(DatabasesKeyword, d, k);
      ContainsNoSep(d, k);
    }
  }

  /** The path of an index, `databases/d/collections/c/indexes/i`, strips to
      three tokens, so NewId reads `parts[3]` and panics. */
  lemma IndexPathOutOfRange(d: string, c: string, i: string)
    requires PlainName(d) && PlainName(c) && '/' !in i
    ensures NewId(IndexPath(d, c, i)) == OutOfRange(3)
  {
    var tail := "/" + IndexesKeyword + i;
    assert IndexPath(d, c, i) == CollectionPath(d, c) + tail;
    CollectionPathFacts(d, c, tail);
    TailFacts(c, IndexesKeyword, i);
    SplitAt(d, c + "/" + i, '/');
    SplitAt(c, i, '/');
    SplitNoSep(i, '/');
  }

  /** A collection keyword without a database, `collections/c`, leaves one
      token, so NewId reads `parts[1]` and panics. */
  lemma LoneCollectionOutOfRange(c: string)
    requires '/' !in c
    ensures NewId(CollectionsKeyword + c) == OutOfRange(1)
  {
    StripKeyword(CollectionsKeyword, c);
    StripNoSep(c);
    SplitNoSep(c, '/');
    assert HasPrefix(CollectionsKeyword + c, CollectionsKeyword);
  }

  // ---------------------------------------------------------------------
  // The `CreateResourceId` helpers of the services

  /** The error NewId returns when the stripped input splits into more than
      three tokens. */
  const FormatError: string := "import ID must be in the format databases/<database_name>/collections/<collection_name>/... "

  /** What a `CreateResourceId` helper returns: the identifier NewId parsed,
      re-emitted (`TerraformString`), NewId's error, or NewId's panic. */
  datatype IdString = IdOk(value: string) | IdError(message: string) | IdPanic(position: nat)

  function FormatResourceId(raw: string): (r: IdString)
    ensures r.IdOk? <==> NewId(raw).Parsed?
    ensures r.IdPanic? <==> NewId(raw).OutOfRange?
  {
    match NewId(raw)
    case Parsed(x) => IdOk(ToString(x))
    case Malformed => IdError(FormatError)
    case OutOfRange(k) => IdPanic(k)
  }

  /** No index path is accepted: NewId never parses an input that holds the
      index keyword, whatever the three names are. */
  lemma IndexPathNeverParsed(d: string, c: string, i: string)
    ensures !NewId(IndexPath(d, c, i)).Parsed?
  {
    assert IndexPath(d, c, i) == (CollectionPath(d, c) + "/") + IndexesKeyword + i;
    ContainsInfix(CollectionPath(d, c) + "/", IndexesKeyword, i);
  }
}
