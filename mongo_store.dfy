/** The MongoDB server as the provider sees it, held as an in-memory value:
    databases of collections, each holding documents keyed by ObjectID and a
    list of index specifications. The functions here give the effect of the
    driver calls the handles make (`ListDatabaseNames`, `CreateCollection`,
    `FindOne`, `InsertOne`, `UpdateOne` with `$set`, `DeleteOne`,
    `Indexes().CreateOne`, `DropOne`, `Drop`), and `Client` is the connection
    the handles share. */
module MongoStore {
  import opened Results

  /** The collection that `Database.EnsureExistance` creates so that a
      database comes into existence (database.go, line 16). */
  const PlaceholderCollectionName: string := "__terraform_provider_mongodb"

  /** The primary-key field of every document. */
  const IdField: string := "_id"

  /** The index every collection has on `_id`. */
  const IdIndexName: string := "_id_"

  /** A field value: an ObjectID (as its lowercase hex; the Extended JSON
      `{"$oid": ...}` is parsed to one) or any other value, held as its JSON
      text. */
  datatype Value = ObjectId(hex: ObjectIdHex) | Other(json: string)

  type Document = map<string, Value>

  /** An index specification as `ListSpecifications` reports it: its name,
      its key elements in order, and the `unique` option when one is set. */
  datatype IndexSpec = IndexSpec(name: string, keys: seq<(string, int)>, unique: Option<bool>)

  /** Documents are keyed by the lowercase hex of their ObjectID. */
  datatype CollectionData = CollectionData(documents: map<string, Document>, indexes: seq<IndexSpec>)

  type Store = map<string, map<string, CollectionData>>

  predicate IsHexDigit(ch: char) {
    ('0' <= ch <= '9') || ('a' <= ch <= 'f') || ('A' <= ch <= 'F')
  }

  /** What `ObjectID.Hex()` produces: 24 lowercase hex digits. */
  predicate IsObjectIdHex(s: string) {
    |s| == 24 && forall i :: 0 <= i < |s| ==> ('0' <= s[i] <= '9') || ('a' <= s[i] <= 'f')
  }

  /** An ObjectID, written as `Hex()` writes it. */
  type ObjectIdHex = s: string | IsObjectIdHex(s) witness "000000000000000000000000"

  function LowerHexDigit(ch: char): char {
    if 'A' <= ch <= 'F' then (ch as int - 'A' as int + 'a' as int) as char else ch
  }

  /** `primitive.ObjectIDFromHex` followed by `Hex()`: exactly 24 hex digits
      of either case are accepted, and the ObjectID is named by their
      lowercase form. */
  function ParseObjectId(s: string): (r: Option<ObjectIdHex>)
    ensures r.Some? <==> |s| == 24 && forall i :: 0 <= i < |s| ==> IsHexDigit(s[i])
    ensures r.Some? ==> forall i :: 0 <= i < 24 ==> r.value[i] == LowerHexDigit(s[i])
  {
    if |s| == 24 && forall i :: 0 <= i < |s| ==> IsHexDigit(s[i]) then
      var h := seq(24, i requires 0 <= i < 24 => LowerHexDigit(s[i]));
      assert IsObjectIdHex(h);
      Some(h)
    else None
  }

  /** The hex an ObjectID prints parses back to the same ObjectID. */
  lemma ParseHex(h: ObjectIdHex)
    ensures ParseObjectId(h) == Some(h)
  {
    assert forall i :: 0 <= i < |h| ==> IsHexDigit(h[i]);
    var r := ParseObjectId(h);
    assert r.value == h;
  }

  /** Parsing is insensitive to the case of the hex digits. */
  lemma ParseIgnoresCase(s: string, t: string)
    requires |s| == |t|
    requires forall i :: 0 <= i < |s| ==> LowerHexDigit(s[i]) == LowerHexDigit(t[i])
    requires forall i :: 0 <= i < |s| ==> IsHexDigit(s[i]) && IsHexDigit(t[i])
    ensures ParseObjectId(s) == ParseObjectId(t)
  {
    if |s| == 24 {
      assert ParseObjectId(s).value == ParseObjectId(t).value;
    }
  }

  /** `primitive.ErrInvalidHex`, the error `ObjectIDFromHex` returns for an
      id whose length is not 24. */
  const InvalidHexError: string := "the provided hex string " + "is not a valid ObjectID"

  /** The position of the first character of s that is not a hex digit. */
  function FirstNonHex(s: string): (i: nat)
    requires exists k :: 0 <= k < |s| && !IsHexDigit(s[k])
    ensures i < |s| && !IsHexDigit(s[i])
    ensures forall k :: 0 <= k < i ==> IsHexDigit(s[k])
  {
    if !IsHexDigit(s[0]) then 0
    else
      var k :| 0 <= k < |s| && !IsHexDigit(s[k]);
      assert s[1..][k - 1] == s[k];
      1 + FirstNonHex(s[1..])
  }

  /** n in uppercase hex, padded with zeros to at least width digits. */
  function HexNumeral(n: nat, width: nat): string
    decreases n + width
  {
    if n == 0 && width == 0 then ""
    else HexNumeral(n / 16, if width == 0 then 0 else width - 1) + ["0123456789ABCDEF"[n % 16]]
  }

  /** `hex.InvalidByteError`: the text names the byte as `%#U` writes it,
      the code point in at least four uppercase hex digits, followed by the
      character in quotes when it is printable. */
  function InvalidByteError(b: char): (e: string)
    ensures |e| > 0 && e[0] == 'e'
  {
    "encoding/hex: invalid byte: U+" + HexNumeral(b as nat, 4)
      + (if ' ' <= b <= '~' then " '" + [b] + "'" else "")
  }

  /** The error `primitive.ObjectIDFromHex` returns for an id it refuses:
      `ErrInvalidHex` when the length is not 24, and otherwise the error of
      `hex.Decode`, which stops at the first character that is not a hex
      digit. */
  function ObjectIdError(id: string): (e: string)
    requires ParseObjectId(id).None?
    ensures e == InvalidHexError <==> |id| != 24
    ensures |id| == 24 ==>
      exists i :: 0 <= i < 24 && !IsHexDigit(id[i]) && (forall k :: 0 <= k < i ==> IsHexDigit(id[k]))
        && e == InvalidByteError(id[i])
  {
    if |id| != 24 then InvalidHexError
    else
      var i := FirstNonHex(id);
      assert InvalidHexError[0] == 't';
      InvalidByteError(id[i])
  }

  /** A 24-character id that is not hex gets the error of `hex.Decode`,
      written as `U+007A 'z'`; a shorter one gets `ErrInvalidHex`. */
  lemma ObjectIdErrors()
    ensures var s := "zzzzzzzzzzzzzzzzzzzzzzzz";
      ParseObjectId(s).None? && ObjectIdError(s) == InvalidByteError('z')
    ensures ObjectIdError("abc") == InvalidHexError
    ensures HexNumeral('z' as nat, 4) == "007A"
  {
    var z := "zzzzzzzzzzzzzzzzzzzzzzzz";
    assert !IsHexDigit(z[0]);
    assert HexNumeral(7, 3) == "007" by {
      assert HexNumeral(0, 2) == "00" by {
        assert HexNumeral(0, 1) == "0" by { assert HexNumeral(0, 0) == ""; }
      }
    }
  }

  /** `hex.Decode` reports the first digit that is not hex, however late. */
  lemma LastDigitError()
    ensures var s := "0123456789abcdef0123456Z";
      ParseObjectId(s).None? && ObjectIdError(s) == InvalidByteError('Z')
  {
    var s := "0123456789abcdef0123456Z";
    assert !IsHexDigit(s[23]);
    assert forall k :: 0 <= k < 23 ==> IsHexDigit(s[k]);
  }

  // ---------------------------------------------------------------------
  // Queries

  /** The collection d.c, if it exists. */
  function Get(st: Store, d: string, c: string): Option<CollectionData> {
    if d in st && c in st[d] then Some(st[d][c]) else None
  }

  function Collections(st: Store, d: string): map<string, CollectionData> {
    if d in st then st[d] else map[]
  }

  /** A database exists on the server exactly while it holds a collection. */
  predicate DatabaseExists(st: Store, d: string) {
    Collections(st, d) != map[]
  }

  predicate CollectionExists(st: Store, d: string, c: string) {
    Get(st, d, c).Some?
  }

  /** The documents of d.c; a missing collection has none. */
  function Documents(st: Store, d: string, c: string): map<string, Document> {
    if CollectionExists(st, d, c) then Get(st, d, c).value.documents else map[]
  }

  /** The index specifications of d.c; a missing collection lists none. */
  function Indexes(st: Store, d: string, c: string): seq<IndexSpec> {
    if CollectionExists(st, d, c) then Get(st, d, c).value.indexes else []
  }

  /** The collections named n in d (a `ListCollectionNames` with a name
      filter). */
  function CollectionNamesEqual(st: Store, d: string, n: string): set<string> {
    set c | c in Collections(st, d) && c == n
  }

  /** The collections of d not named n (a `$ne` name filter). */
  function CollectionNamesOtherThan(st: Store, d: string, n: string): set<string> {
    set c | c in Collections(st, d) && c != n
  }

  /** The databases named n that the server lists (`ListDatabaseNames` with a
      name filter). */
  function DatabaseNamesEqual(st: Store, n: string): set<string> {
    set d | d in st && DatabaseExists(st, d) && d == n
  }

  /** A database is empty when it holds no collection but the placeholder. */
  predicate DatabaseIsEmpty(st: Store, d: string) {
    forall c :: c in Collections(st, d) ==> c == PlaceholderCollectionName
  }

  lemma DatabaseExistsWitness(st: Store, d: string, c: string)
    requires CollectionExists(st, d, c)
    ensures DatabaseExists(st, d)
  {
    assert c in Collections(st, d);
  }

  /** The lookup of `Collection.FindById` on d.c: the id must be ObjectID hex
      (of either case), and the driver's error is returned otherwise; a missing document is `Ok(None)`, not an error; `_id`
      is removed from the document unless includeId is set. */
  function FindDocument(st: Store, d: string, c: string, id: string, includeId: bool): (r: Result<Option<Document>>)
    ensures r.Err? <==> ParseObjectId(id).None?
    ensures r.Err? ==> r.message == ObjectIdError(id)
    ensures r.Ok? ==> (r.value.Some? <==> ParseObjectId(id).value in Documents(st, d, c))
    ensures r.Ok? && r.value.Some? ==>
      var stored := Documents(st, d, c)[ParseObjectId(id).value];
      && (includeId ==> r.value.value == stored)
      && (!includeId ==> r.value.value == stored - {IdField})
  {
    match ParseObjectId(id)
    case None => Err(ObjectIdError(id))
    case Some(oid) =>
      var docs := Documents(st, d, c);
      if oid !in docs then Ok(None)
      else if !includeId then Ok(Some(docs[oid] - {IdField}))
      else Ok(Some(docs[oid]))
  }

  /** Nothing outside the collection d.c differs between two stores. */
  ghost predicate OnlyChanged(st: Store, st': Store, d: string, c: string) {
    forall d2, c2 :: d2 != d || c2 != c ==> Get(st', d2, c2) == Get(st, d2, c2)
  }

  // ---------------------------------------------------------------------
  // Updates

  /** Stores data as the collection d.c, creating the database if needed. */
  function PutCollection(st: Store, d: string, c: string, data: CollectionData): (st': Store)
    ensures Get(st', d, c) == Some(data)
    ensures OnlyChanged(st, st', d, c)
    ensures DatabaseExists(st', d)
  {
    var st' := st[d := Collections(st, d)[c := data]];
    assert c in Collections(st', d);
    st'
  }

  /** A collection as the server creates it: no documents and the `_id_`
      index. */
  const NewCollection: CollectionData := CollectionData(map[], [IndexSpec(IdIndexName, [(IdField, 1)], None)])

  /** The collection d.c, or the one the server creates implicitly when a
      write reaches a missing collection. */
  function GetOrNew(st: Store, d: string, c: string): CollectionData {
    Get(st, d, c).GetOr(NewCollection)
  }

  /** `Database.CreateCollection`: fails when the collection exists. */
  function CreateCollection(st: Store, d: string, c: string): (r: Result<Store>)
    ensures r.Err? <==> CollectionExists(st, d, c)
    ensures r.Ok? ==> Get(r.value, d, c) == Some(NewCollection) && OnlyChanged(st, r.value, d, c)
  {
    if CollectionExists(st, d, c) then Err("collection already exists")
    else Ok(PutCollection(st, d, c, NewCollection))
  }

  /** `Database.Drop`: removes the database; dropping a missing one is not an
      error. */
  function DropDatabase(st: Store, d: string): (st': Store)
    ensures !DatabaseExists(st', d)
    ensures forall c :: !CollectionExists(st', d, c)
    ensures forall d2, c :: d2 != d ==> Get(st', d2, c) == Get(st, d2, c)
  {
    st - {d}
  }

  /** `Collection.Drop`: removes the collection with its documents and
      indexes; dropping a missing one is not an error. */
  function DropCollection(st: Store, d: string, c: string): (st': Store)
    ensures !CollectionExists(st', d, c)
    ensures OnlyChanged(st, st', d, c)
  {
    if CollectionExists(st, d, c) then st[d := st[d] - {c}] else st
  }

  /** The ObjectID a document is inserted under: its own `_id` when that is
      an ObjectID, and otherwise the one the driver generates. */
  function InsertedKey(doc: Document, oid: ObjectIdHex): ObjectIdHex {
    if IdField in doc && doc[IdField].ObjectId? then doc[IdField].hex else oid
  }

  /** The error of `Collection.InsertOne` when the inserted id is not an
      ObjectID. */
  const NotObjectIdError: string := "failed to convert InsertedID to ObjectID"

  /** `InsertOne`: a document without `_id` is given the generated ObjectID
      oid, and one whose `_id` is an ObjectID keeps it; a missing collection
      (and database) is created on the way. A duplicate ObjectID is
      rejected, and so is an `_id` that is not an ObjectID. */
  function InsertDocument(st: Store, d: string, c: string, doc: Document, oid: ObjectIdHex): (r: Result<Store>)
    ensures r.Ok? <==> (IdField !in doc || doc[IdField].ObjectId?) && InsertedKey(doc, oid) !in Documents(st, d, c)
    ensures IdField in doc && doc[IdField].Other? ==> r == Err(NotObjectIdError)
    ensures r.Ok? ==>
      var key := InsertedKey(doc, oid);
      Documents(r.value, d, c) == Documents(st, d, c)[key := doc[IdField := ObjectId(key)]]
    ensures r.Ok? && IdField in doc ==> Documents(r.value, d, c)[doc[IdField].hex] == doc
    ensures r.Ok? ==> Indexes(r.value, d, c) == GetOrNew(st, d, c).indexes
    ensures r.Ok? ==> OnlyChanged(st, r.value, d, c)
  {
    var data := GetOrNew(st, d, c);
    var key := InsertedKey(doc, oid);
    if IdField in doc && doc[IdField].Other? then Err(NotObjectIdError)
    else if key in data.documents then Err("duplicate key error")
    else
      var st' := PutCollection(st, d, c, data.(documents := data.documents[key := doc[IdField := ObjectId(key)]]));
      assert IdField in doc ==> doc[IdField := ObjectId(key)] == doc;
      Ok(st')
  }

  /** new_doc is old_doc after `$set: update`: every field of update is set
      and every other field is kept. */
  predicate SetApplied(old_doc: Document, update: Document, new_doc: Document) {
    && new_doc.Keys == old_doc.Keys + update.Keys
    && (forall f :: f in update ==> new_doc[f] == update[f])
    && (forall f :: f in old_doc && f !in update ==> new_doc[f] == old_doc[f])
  }

  /** `UpdateOne({_id: key}, {$set: update})`: every field of update is set on
      the matching document and the others are kept; changing `_id` is
      refused, and no match is not an error. */
  function SetFields(st: Store, d: string, c: string, key: string, update: Document): (r: Result<Store>)
    ensures key !in Documents(st, d, c) ==> r == Ok(st)
    ensures r.Err? <==> (key in Documents(st, d, c) && IdField in update &&
                         (IdField !in Documents(st, d, c)[key] || update[IdField] != Documents(st, d, c)[key][IdField]))
    ensures r.Ok? && key in Documents(st, d, c) ==>
      && key in Documents(r.value, d, c)
      && SetApplied(Documents(st, d, c)[key], update, Documents(r.value, d, c)[key])
      && Documents(r.value, d, c) == Documents(st, d, c)[key := Documents(r.value, d, c)[key]]
      && Indexes(r.value, d, c) == Indexes(st, d, c)
      && OnlyChanged(st, r.value, d, c)
  {
    var docs := Documents(st, d, c);
    if key !in docs then Ok(st)
    else if IdField in update && (IdField !in docs[key] || update[IdField] != docs[key][IdField]) then
      Err("Performing an update on the path '_id' would modify the immutable field '_id'")
    else
      var data := Get(st, d, c).value;
      Ok(PutCollection(st, d, c, data.(documents := docs[key := docs[key] + update])))
  }

  /** `DeleteOne({_id: key})`: removes at most that document. */
  function DeleteDocument(st: Store, d: string, c: string, key: string): (st': Store)
    ensures Documents(st', d, c) == Documents(st, d, c) - {key}
    ensures Indexes(st', d, c) == Indexes(st, d, c)
    ensures CollectionExists(st', d, c) <==> CollectionExists(st, d, c)
    ensures OnlyChanged(st, st', d, c)
  {
    if CollectionExists(st, d, c) then
      var data := Get(st, d, c).value;
      PutCollection(st, d, c, data.(documents := data.documents - {key}))
    else st
  }

  /** Deleting a document twice is the same as deleting it once. */
  lemma DeleteTwice(st: Store, d: string, c: string, key: string)
    ensures DeleteDocument(DeleteDocument(st, d, c, key), d, c, key) == DeleteDocument(st, d, c, key)
  {
    var st1 := DeleteDocument(st, d, c, key);
    if CollectionExists(st, d, c) {
      var data := Get(st, d, c).value;
      var data1 := Get(st1, d, c).value;
      assert data1 == data.(documents := data.documents - {key});
      assert data1.(documents := data1.documents - {key}) == data1;
      assert Collections(st1, d)[c := data1] == Collections(st1, d);
      assert PutCollection(st1, d, c, data1) == st1;
    }
  }

  // ---------------------------------------------------------------------
  // Indexes

  /** The unique option as the server applies it: absent means false. */
  function UniqueOption(u: Option<bool>): bool {
    u == Some(true)
  }

  /** The position of the first specification named name, or the length
      when there is none. */
  function FirstNamed(specs: seq<IndexSpec>, name: string): (k: nat)
    ensures k <= |specs|
    ensures forall j :: 0 <= j < k ==> specs[j].name != name
    ensures k < |specs| ==> specs[k].name == name
  {
    if specs == [] then 0
    else if specs[0].name == name then 0
    else 1 + FirstNamed(specs[1..], name)
  }

  predicate SomeNamed(specs: seq<IndexSpec>, name: string) {
    exists i :: 0 <= i < |specs| && specs[i].name == name
  }

  predicate SomeKeyed(specs: seq<IndexSpec>, keys: seq<(string, int)>) {
    exists i :: 0 <= i < |specs| && specs[i].keys == keys
  }

  /** `Indexes().CreateOne` of the single-key index {field: direction} with
      the unique option, under the name `generated` the driver derives: an
      identical index already there is kept, an index that clashes on its
      name or its keys is refused, and otherwise the index is appended (a
      missing collection is created first). */
  function CreateIndex(st: Store, d: string, c: string, field: string, direction: int, unique: bool,
                       generated: string): (r: Result<(Store, string)>)
    ensures r.Ok? ==> r.value.1 == generated
    ensures r.Ok? && !SomeNamed(GetOrNew(st, d, c).indexes, generated) ==>
      Indexes(r.value.0, d, c) == GetOrNew(st, d, c).indexes + [IndexSpec(generated, [(field, direction)], Some(unique))]
      && Documents(r.value.0, d, c) == Documents(st, d, c)
    ensures r.Ok? ==> OnlyChanged(st, r.value.0, d, c)
    ensures r.Ok? ==> (exists i :: 0 <= i < |Indexes(r.value.0, d, c)| &&
                         Indexes(r.value.0, d, c)[i].name == generated && Indexes(r.value.0, d, c)[i].keys == [(field, direction)] &&
                         UniqueOption(Indexes(r.value.0, d, c)[i].unique) == unique)
  {
    var data := GetOrNew(st, d, c);
    var keys := [(field, direction)];
    var i := FirstNamed(data.indexes, generated);
    if i < |data.indexes| then
      if data.indexes[i].keys == keys && UniqueOption(data.indexes[i].unique) == unique then
        var st' := PutCollection(st, d, c, data);
        assert Indexes(st', d, c)[i] == data.indexes[i];
        Ok((st', generated))
      else Err("An existing index has the same name as the requested index")
    else if SomeKeyed(data.indexes, keys) then
      Err("Index already exists with a different name")
    else
      var spec := IndexSpec(generated, keys, Some(unique));
      var st' := PutCollection(st, d, c, data.(indexes := data.indexes + [spec]));
      assert Indexes(st', d, c)[|data.indexes|] == spec;
      Ok((st', generated))
  }

  /** The specifications without those named name, in order. */
  function RemoveNamed(specs: seq<IndexSpec>, name: string): (r: seq<IndexSpec>)
    ensures forall s :: s in r <==> s in specs && s.name != name
    ensures |r| <= |specs|
  {
    if specs == [] then []
    else if specs[0].name == name then RemoveNamed(specs[1..], name)
    else [specs[0]] + RemoveNamed(specs[1..], name)
  }

  /** `Indexes().DropOne(name)`: fails on a missing collection, on `_id_` and
      on a name no index has; otherwise that index is removed. */
  function DropIndex(st: Store, d: string, c: string, name: string): (r: Result<Store>)
    ensures r.Ok? <==> CollectionExists(st, d, c) && name != IdIndexName && SomeNamed(Indexes(st, d, c), name)
    ensures r.Ok? ==> Indexes(r.value, d, c) == RemoveNamed(Indexes(st, d, c), name)
    ensures r.Ok? ==> Documents(r.value, d, c) == Documents(st, d, c)
    ensures r.Ok? ==> OnlyChanged(st, r.value, d, c)
  {
    if !CollectionExists(st, d, c) then Err("ns not found")
    else if name == IdIndexName then Err("cannot drop _id index")
    else
      var data := Get(st, d, c).value;
      if !SomeNamed(data.indexes, name) then Err("index not found with name")
      else Ok(PutCollection(st, d, c, data.(indexes := RemoveNamed(data.indexes, name))))
  }

  // ---------------------------------------------------------------------
  // The connection

  /** The `MongoClient`: the server it talks to and whether it holds a live
      connection (`IsConnected`). */
  class Client {
    var store: Store
    var connected: bool

    constructor (store: Store)
      ensures this.store == store && !connected
    {
      this.store := store;
      connected := false;
    }

    /** `Connect`: the outcome of dialing and pinging the server is an input
        (connectError), since the network is not modelled. */
    method Connect(connectError: Option<string>) returns (err: Option<string>)
      modifies this`connected
      ensures err == connectError
      ensures connected == (connectError.None? || old(connected))
    {
      err := connectError;
      if connectError.None? {
        connected := true;
      }
    }

    /** `Disconnect` */
    method Disconnect()
      modifies this`connected
      ensures !connected
    {
      connected := false;
    }
  }
}
