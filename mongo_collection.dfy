/** The collection handle of the MongoDB client (mongoclient/collection.go,
    and the `Index` and `IndexFromField` constructors of index.go). */
module MongoCollection {
  import opened Results
  import opened MongoStore
  import opened MongoIndex

  /** `FindByIdOptions`; a nil pointer is `None`. */
  datatype FindByIdOptions = FindByIdOptions(includeId: bool)

  /** `opts != nil && opts.IncludeId` */
  predicate IncludesId(opts: Option<FindByIdOptions>) {
    opts.Some? && opts.value.includeId
  }

  /** A handle on the collection `name` of `database`, reached through the
      shared client. */
  class Collection {
    const client: Client
    const database: string
    const name: string

    constructor (client: Client, database: string, name: string)
      ensures this.client == client && this.database == database && this.name == name
    {
      this.client := client;
      this.database := database;
      this.name := name;
    }

    /** `Exists`: the name-filtered collection listing is not empty. */
    function Exists(): (b: bool)
      reads client
      ensures b <==> CollectionExists(client.store, database, name)
    {
      var names := CollectionNamesEqual(client.store, database, name);
      assert CollectionExists(client.store, database, name) ==> name in names;
      |names| > 0
    }

    /** `IsEmpty`: the document count is zero. */
    function IsEmpty(): (b: bool)
      reads client
      ensures b <==> Documents(client.store, database, name) == map[]
    {
      |Documents(client.store, database, name)| == 0
    }

    /** `FindById`: `FindDocument` on this collection, with `_id` kept only
        when the options ask for it. */
    function FindById(id: string, opts: Option<FindByIdOptions>): (r: Result<Option<Document>>)
      reads client
      ensures r == FindDocument(client.store, database, name, id, IncludesId(opts))
    {
      var includeId := opts.Some? && opts.value.includeId;
      FindDocument(client.store, database, name, id, includeId)
    }

    /** `EnsureExistance`: creates the collection when the listing does not
        show it; a listed collection is left untouched. */
    method EnsureExistance() returns (err: Option<string>)
      modifies client`store
      ensures err.None?
      ensures CollectionExists(client.store, database, name)
      ensures old(CollectionExists(client.store, database, name)) ==> client.store == old(client.store)
      ensures !old(CollectionExists(client.store, database, name)) ==>
        client.store == PutCollection(old(client.store), database, name, NewCollection)
    {
      var exists_ := Exists();
      if exists_ {
        return None;
      }
      var created := CreateCollection(client.store, database, name);
      // CreateCollection fails only on an existing collection, which the
      // listing has just ruled out.
      assert created.Ok?;
      client.store := created.value;
      return None;
    }

    /** `Drop` */
    method Drop() returns (err: Option<string>)
      modifies client`store
      ensures err.None? && client.store == DropCollection(old(client.store), database, name)
    {
      client.store := DropCollection(client.store, database, name);
      return None;
    }

    /** `InsertOne`, with the ObjectID the driver generates as an input; on
        success the hex of the inserted ObjectID (the document's own `_id`
        or the generated one) is returned, and `FindById` finds the document
        under it (without `_id`, the document as given). */
    method InsertOne(document: Document, generated: ObjectIdHex) returns (r: Result<string>)
      modifies client`store
      ensures match InsertDocument(old(client.store), database, name, document, generated)
        case Ok(st) => r == Ok(InsertedKey(document, generated)) && client.store == st
        case Err(m) => r == Err(m) && client.store == old(client.store)
      ensures r.Ok? ==> FindById(r.value, None) == Ok(Some(document - {IdField}))
      ensures r.Ok? && IdField in document ==> r.value == document[IdField].hex
    {
      var inserted := InsertDocument(client.store, database, name, document, generated);
      if inserted.Err? {
        return Err(inserted.message);
      }
      client.store := inserted.value;
      var key := InsertedKey(document, generated);
      ParseHex(key);
      assert document[IdField := ObjectId(key)] - {IdField} == document - {IdField};
      return Ok(key);
    }

    /** `UpdateByID`: `$set` of the update's fields on the document with that
        id; an id that is not ObjectID hex is an error and changes nothing. */
    method UpdateByID(id: string, update: Document) returns (err: Option<string>)
      modifies client`store
      ensures ParseObjectId(id).None? ==> err == Some(ObjectIdError(id)) && client.store == old(client.store)
      ensures ParseObjectId(id).Some? ==>
        match SetFields(old(client.store), database, name, ParseObjectId(id).value, update)
        case Ok(st) => err.None? && client.store == st
        case Err(m) => err == Some(m) && client.store == old(client.store)
    {
      var oid := ParseObjectId(id);
      if oid.None? {
        return Some(ObjectIdError(id));
      }
      var updated := SetFields(client.store, database, name, oid.value, update);
      if updated.Err? {
        return Some(updated.message);
      }
      client.store := updated.value;
      return None;
    }

    /** `DeleteByID`: removes at most the document with that id; an id that is
        not ObjectID hex is an error and changes nothing. */
    method DeleteByID(id: string) returns (err: Option<string>)
      modifies client`store
      ensures ParseObjectId(id).None? ==> err == Some(ObjectIdError(id)) && client.store == old(client.store)
      ensures ParseObjectId(id).Some? ==>
        err.None? && client.store == DeleteDocument(old(client.store), database, name, ParseObjectId(id).value)
    {
      var oid := ParseObjectId(id);
      if oid.None? {
        return Some(ObjectIdError(id));
      }
      client.store := DeleteDocument(client.store, database, name, oid.value);
      return None;
    }

    /** `Index(name)`: a handle that looks the index up by name. */
    method Index(name: string) returns (i: Index)
      ensures fresh(i)
      ensures i.client == client && i.database == database && i.collection == this.name
      ensures i.name == name && i.field == "" && i.direction == 0 && !i.unique
    {
      i := new Index(client, database, this.name, name, "", 0, false);
    }

    /** `IndexFromField`: a handle without a name, looked up by field,
        direction and unique. */
    method IndexFromField(field: string, direction: int, unique: bool) returns (i: Index)
      ensures fresh(i)
      ensures i.client == client && i.database == database && i.collection == name
      ensures i.name == "" && i.field == field && i.direction == direction && i.unique == unique
    {
      i := new Index(client, database, name, "", field, direction, unique);
    }
  }
}
