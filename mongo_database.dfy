/** The database handle of the MongoDB client (mongoclient/database.go, and
    the `Collection` constructor of collection.go). */
module MongoDatabase {
  import opened Results
  import opened MongoStore
  import opened MongoCollection

  /** A database created only by `EnsureExistance` holds the placeholder
      collection alone, so it exists and is empty. */
  lemma PlaceholderOnly(st: Store, d: string)
    requires !DatabaseExists(st, d)
    ensures var st' := PutCollection(st, d, PlaceholderCollectionName, NewCollection);
      DatabaseExists(st', d) && DatabaseIsEmpty(st', d) &&
      Collections(st', d) == map[PlaceholderCollectionName := NewCollection]
  {
    var st' := PutCollection(st, d, PlaceholderCollectionName, NewCollection);
    assert Collections(st, d) == map[];
    assert Collections(st', d) == map[PlaceholderCollectionName := NewCollection];
  }

  /** A handle on the database `name` (`MongoClient.Database(name)`). */
  class Database {
    const client: Client
    const name: string

    constructor (client: Client, name: string)
      ensures this.client == client && this.name == name
    {
      this.client := client;
      this.name := name;
    }

    /** `Exists`: the name-filtered database listing is not empty. */
    function Exists(): (b: bool)
      reads client
      ensures b <==> DatabaseExists(client.store, name)
    {
      var names := DatabaseNamesEqual(client.store, name);
      assert DatabaseExists(client.store, name) ==> name in names;
      |names| > 0
    }

    /** `IsEmpty`: no collection but the placeholder is listed. */
    function IsEmpty(): (b: bool)
      reads client
      ensures b <==> DatabaseIsEmpty(client.store, name)
    {
      var others := CollectionNamesOtherThan(client.store, name, PlaceholderCollectionName);
      assert forall c :: c in Collections(client.store, name) && c != PlaceholderCollectionName ==> c in others;
      |others| == 0
    }

    /** `EnsureExistance`: a database that exists is left untouched; a
        missing one is created by creating the placeholder collection alone. */
    method EnsureExistance() returns (err: Option<string>)
      modifies client`store
      ensures err.None?
      ensures DatabaseExists(client.store, name)
      ensures old(DatabaseExists(client.store, name)) ==> client.store == old(client.store)
      ensures !old(DatabaseExists(client.store, name)) ==>
        client.store == PutCollection(old(client.store), name, PlaceholderCollectionName, NewCollection)
    {
      var exists_ := Exists();
      if exists_ {
        return None;
      }
      assert Collections(client.store, name) == map[];
      var created := CreateCollection(client.store, name, PlaceholderCollectionName);
      // CreateCollection fails only on an existing collection, which the
      // listing has just ruled out.
      assert created.Ok?;
      client.store := created.value;
      return None;
    }

    /** `Drop` */
    method Drop() returns (err: Option<string>)
      modifies client`store
      ensures err.None? && client.store == DropDatabase(old(client.store), name)
    {
      client.store := DropDatabase(client.store, name);
      return None;
    }

    /** `Collection(name)`: a handle on a collection of this database. */
    method Collection(name: string) returns (c: Collection)
      ensures fresh(c) && c.client == client && c.database == this.name && c.name == name
    {
      c := new Collection(client, this.name, name);
    }
  }
}
