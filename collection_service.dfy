/** The collection resource and data source (internal/service/collection).
    Its existence check asks whether the *database* exists, so a read of a
    missing collection in an existing database succeeds. */
module CollectionService {
  import opened Results
  import opened GoStrings
  import opened ResourceIds
  import opened Diagnostics
  import opened MongoStore
  import opened MongoCollection
  import opened MongoDatabase
  import DatabaseService

  /** `CollectionDataSourceModel` */
  datatype CollectionDataSourceModel = CollectionDataSourceModel(database: string, name: string, id: string)

  /** `CollectionResourceModel` */
  datatype CollectionResourceModel = CollectionResourceModel(name: string, id: string, database: string, forceDestroy: bool)

  /** The attributes `ImportState` sets. */
  datatype CollectionImport = CollectionImport(database: string, name: string)

  function NotFound(name: string): Diagnostic {
    Diagnostic(CollectionNotFound, "Collection " + name + " not found")
  }

  /** `CheckExistance`: decides on `database.Exists()` alone; the handle on
      the named collection is returned whenever the database exists. */
  method CheckExistance(database: Database, name: string, diags: seq<Diagnostic>)
    returns (collection: Collection?, diags': seq<Diagnostic>)
    ensures collection != null <==> DatabaseExists(database.client.store, database.name)
    ensures collection != null ==>
      && fresh(collection) && collection.client == database.client
      && collection.database == database.name && collection.name == name && diags' == diags
    ensures collection == null ==> diags' == diags + [NotFound(name)]
  {
    collection := database.Collection(name);
    if !database.Exists() {
      return null, diags + [NotFound(name)];
    }
    diags' := diags;
  }

  /** `CreateResourceId`: NewId of `databases/<database>/collections/<name>`,
      re-emitted. */
  function CreateResourceId(database: string, name: string): IdString {
    FormatResourceId(CollectionPath(database, name))
  }

  /** Plain, non-empty names yield `databases/<database>/collections/<name>`. */
  lemma CreateResourceIdPath(database: string, name: string)
    ensures PlainName(database) && PlainName(name) && database != "" && name != "" ==>
      CreateResourceId(database, name) == IdOk(CollectionPath(database, name))
  {
    if PlainName(database) && PlainName(name) && database != "" && name != "" {
      CollectionPathRoundTrip(database, name);
    }
  }

  /** Both names are plain and non-empty: the Id is the canonical path. */
  predicate PlainNames(database: string, name: string) {
    PlainName(database) && PlainName(name) && database != "" && name != ""
  }

  /** What `dataSourceRead` does on the store st: the database check, then
      the collection check (which looks at the database again), then the Id. */
  function DataSourceResult(st: Store, data: CollectionDataSourceModel): (r: (CollectionDataSourceModel, Outcome))
    ensures r.0.database == data.database && r.0.name == data.name
    ensures r.1 == Completed([]) ==> DatabaseExists(st, data.database)
    ensures r.1 != Completed([]) ==> r.0 == data
    ensures !DatabaseExists(st, data.database) ==>
      r == (data, Completed([DatabaseService.NotFound(data.database)]))
    ensures DatabaseExists(st, data.database) && PlainNames(data.database, data.name) ==>
      r == (data.(id := CollectionPath(data.database, data.name)), Completed([]))
  {
    if !DatabaseExists(st, data.database) then (data, Completed([DatabaseService.NotFound(data.database)]))
    else if !DatabaseExists(st, data.database) then (data, Completed([NotFound(data.name)]))
    else
      CreateResourceIdPath(data.database, data.name);
      match CreateResourceId(data.database, data.name)
      case IdOk(id) => (data.(id := id), Completed([]))
      case IdError(m) => (data, Completed([Diagnostic(InvalidConfiguration, m)]))
      case IdPanic(k) => (data, Panicked(k))
  }

  /** What `resourceRead` does: the data-source read on database, name and
      Id; only the Id can change. */
  function ResourceResult(st: Store, data: CollectionResourceModel): (r: (CollectionResourceModel, Outcome))
    ensures r.0 == data.(id := r.0.id)
    ensures r.1 != Completed([]) ==> r.0 == data
    ensures r.1 == DataSourceResult(st, CollectionDataSourceModel(data.database, data.name, data.id)).1
  {
    var (d, o) := DataSourceResult(st, CollectionDataSourceModel(data.database, data.name, data.id));
    (data.(id := d.id, name := d.name, database := d.database), o)
  }

  /** The collection check never fails where the database check has passed,
      so a read never reports "Collection Not Found", and it succeeds on a
      missing collection of an existing database. */
  lemma ReadIgnoresCollection(st: Store, data: CollectionDataSourceModel)
    ensures var o := DataSourceResult(st, data).1;
      o.Completed? ==> NotFound(data.name) !in o.diags
    ensures DatabaseExists(st, data.database) && PlainNames(data.database, data.name) ==>
      DataSourceResult(st, data).1 == Completed([])
  {
    var o := DataSourceResult(st, data).1;
    if o.Completed? && o.diags != [] {
      assert o.diags[0].summary != CollectionNotFound;
    }
  }

  /** `dataSourceRead` */
  method DataSourceRead(client: Client, data: CollectionDataSourceModel)
    returns (data': CollectionDataSourceModel, o: Outcome)
    ensures (data', o) == DataSourceResult(client.store, data)
  {
    var database, diags := DatabaseService.CheckExistance(client, data.database, []);
    if database == null {
      assert diags == [DatabaseService.NotFound(data.database)];
      return data, Completed(diags);
    }
    var collection, diags2 := CheckExistance(database, data.name, diags);
    if collection == null {
      return data, Completed(diags2);
    }
    var resourceId := CreateResourceId(data.database, data.name);
    match resourceId
    case IdError(m) =>
      return data, Completed([Diagnostic(InvalidConfiguration, m)]);
    case IdPanic(k) =>
      return data, Panicked(k);
    case IdOk(id) =>
      return data.(id := id), Completed([]);
  }

  /** `resourceRead` */
  method ResourceRead(client: Client, data: CollectionResourceModel) returns (data': CollectionResourceModel, o: Outcome)
    ensures (data', o) == ResourceResult(client.store, data)
  {
    var d, diags := DataSourceRead(client, CollectionDataSourceModel(data.database, data.name, data.id));
    data' := data.(id := d.id, name := d.name, database := d.database);
    o := diags;
  }

  // ---------------------------------------------------------------------
  // The resource controllers, as functions of the store they start from

  /** `Create`: the database must exist; the collection is ensured, then read
      back. */
  function CreateResult(st: Store, plan: CollectionResourceModel, connectError: Option<string>)
    : (Store, Response<CollectionResourceModel>)
  {
    if connectError.Some? then (st, Fail(ClientError, connectError.value))
    else if !DatabaseExists(st, plan.database) then
      (st, Response(None, [DatabaseService.NotFound(plan.database)]))
    else
      var st' := if CollectionExists(st, plan.database, plan.name) then st
                 else PutCollection(st, plan.database, plan.name, NewCollection);
      var (data, o) := ResourceResult(st', plan);
      (st', Finish(data, o))
  }

  /** `Read` */
  function ReadResult(st: Store, prior: CollectionResourceModel, connectError: Option<string>)
    : Response<CollectionResourceModel>
  {
    if connectError.Some? then Fail(ClientError, connectError.value)
    else
      var (data, o) := ResourceResult(st, prior);
      Finish(data, o)
  }

  /** `Update`: the plan is written to the state, and the store is not
      consulted. */
  function UpdateResult(plan: CollectionResourceModel): (r: Response<CollectionResourceModel>)
    ensures r == Response(Some(plan), [])
  {
    Response(Some(plan), [])
  }

  const NotEmpty: Diagnostic :=
    Diagnostic(CollectionNotEmpty, "Collection contains data. Set force_destroy to true to delete the collection.")

  /** `Delete`: a missing database or collection is already deleted; a
      collection holding documents is dropped only with force_destroy. */
  function DeleteResult(st: Store, prior: CollectionResourceModel, connectError: Option<string>)
    : (Store, Response<CollectionResourceModel>)
  {
    if connectError.Some? then (st, Fail(ClientError, connectError.value))
    else if !DatabaseExists(st, prior.database) then (st, Response(None, []))
    else if !CollectionExists(st, prior.database, prior.name) then (st, Response(None, []))
    else if Documents(st, prior.database, prior.name) != map[] && !prior.forceDestroy then
      (st, Response(None, [NotEmpty]))
    else (DropCollection(st, prior.database, prior.name), Response(None, []))
  }

  /** `ImportState`: the identifier must parse and name a database and a
      collection. */
  function ImportState(raw: string): Response<CollectionImport> {
    match NewId(raw)
    case Malformed => Fail(InvalidImportId, FormatError)
    case OutOfRange(k) => Crashed(k)
    case Parsed(x) =>
      if x.database == "" then Fail(InvalidImportId, "Database name is required")
      else if x.collection == "" then Fail(InvalidImportId, "Collection name is required")
      else Response(Some(CollectionImport(x.database, x.collection)), [])
  }

  // ---------------------------------------------------------------------
  // Properties of the controllers

  /** Create in a missing database fails and creates nothing. */
  lemma CreateNeedsDatabase(st: Store, plan: CollectionResourceModel)
    requires !DatabaseExists(st, plan.database)
    ensures CreateResult(st, plan, None) == (st, Response(None, [DatabaseService.NotFound(plan.database)]))
  {
  }

  /** Create in an existing database leaves the collection existing, changes
      nothing when it already existed, and records its canonical Id. */
  lemma CreateRecordsId(st: Store, plan: CollectionResourceModel)
    requires DatabaseExists(st, plan.database) && PlainNames(plan.database, plan.name)
    ensures var (st', resp) := CreateResult(st, plan, None);
      && CollectionExists(st', plan.database, plan.name)
      && (CollectionExists(st, plan.database, plan.name) ==> st' == st)
      && resp == Response(Some(plan.(id := CollectionPath(plan.database, plan.name))), [])
  {
    var st' := CreateResult(st, plan, None).0;
    if !CollectionExists(st, plan.database, plan.name) {
      assert DatabaseExists(st', plan.database);
    }
  }

  /** Create is idempotent. */
  lemma CreateTwice(st: Store, plan: CollectionResourceModel)
    ensures var (st1, resp1) := CreateResult(st, plan, None);
      CreateResult(st1, plan, None) == (st1, resp1)
  {
    var (st1, resp1) := CreateResult(st, plan, None);
    if DatabaseExists(st, plan.database) && !CollectionExists(st, plan.database, plan.name) {
      assert CollectionExists(st1, plan.database, plan.name);
    }
  }

  /** Delete of a collection that is not there succeeds and changes nothing. */
  lemma DeleteMissing(st: Store, prior: CollectionResourceModel)
    requires !CollectionExists(st, prior.database, prior.name)
    ensures DeleteResult(st, prior, None) == (st, Response(None, []))
  {
  }

  /** The force guard: an existing collection is dropped when it holds no
      document or force_destroy is set; otherwise Delete fails with
      "Collection Not Empty" and the store is unchanged. */
  lemma DeleteGuard(st: Store, prior: CollectionResourceModel)
    requires CollectionExists(st, prior.database, prior.name)
    ensures var (st', resp) := DeleteResult(st, prior, None);
      && (Succeeded(resp) <==> Documents(st, prior.database, prior.name) == map[] || prior.forceDestroy)
      && (Succeeded(resp) ==> !CollectionExists(st', prior.database, prior.name))
      && (!Succeeded(resp) ==> st' == st && resp.diags == [NotEmpty])
  {
    DatabaseExistsWitness(st, prior.database, prior.name);
  }

  /** Deleting twice is harmless: the second Delete finds nothing and
      succeeds. */
  lemma DeleteTwice(st: Store, prior: CollectionResourceModel)
    requires Succeeded(DeleteResult(st, prior, None).1)
    ensures var st1 := DeleteResult(st, prior, None).0;
      DeleteResult(st1, prior, None) == (st1, Response(None, []))
  {
  }

  /** Importing the Id the resource records gives back both names; an
      accepted identifier names a database and a collection. */
  lemma ImportRoundTrip(database: string, name: string, raw: string)
    requires PlainNames(database, name)
    ensures ImportState(CollectionPath(database, name)) == Response(Some(CollectionImport(database, name)), [])
    ensures Succeeded(ImportState(raw)) ==>
      Contains(raw, DatabasesKeyword) && Contains(raw, CollectionsKeyword)
  {
    CollectionPathRoundTrip(database, name);
  }

  /** The collection resource, over the shared client. */
  class CollectionResource {
    const client: Client

    constructor (client: Client)
      ensures this.client == client
    {
      this.client := client;
    }

    /** `Create` */
    method Create(plan: CollectionResourceModel, connectError: Option<string>)
      returns (resp: Response<CollectionResourceModel>)
      modifies client
      ensures (client.store, resp) == CreateResult(old(client.store), plan, connectError)
      ensures client.connected == (connectError.Some? && old(client.connected))
    {
      var err := client.Connect(connectError);
      if err.Some? {
        return Fail(ClientError, err.value);
      }
      var database, diags := DatabaseService.CheckExistance(client, plan.database, []);
      if database == null {
        assert diags == [DatabaseService.NotFound(plan.database)];
        client.Disconnect();
        return Response(None, diags);
      }
      var collection := database.Collection(plan.name);
      var _ := collection.EnsureExistance();
      var data, o := ResourceRead(client, plan);
      client.Disconnect();
      resp := Finish(data, o);
    }

    /** `Read` */
    method Read(prior: CollectionResourceModel, connectError: Option<string>)
      returns (resp: Response<CollectionResourceModel>)
      modifies client`connected
      ensures resp == ReadResult(client.store, prior, connectError)
      ensures client.connected == (connectError.Some? && old(client.connected))
    {
      var err := client.Connect(connectError);
      if err.Some? {
        return Fail(ClientError, err.value);
      }
      var data, o := ResourceRead(client, prior);
      client.Disconnect();
      resp := Finish(data, o);
    }

    /** `Update`: the plan becomes the state; the client and the server are
        not touched. */
    method Update(plan: CollectionResourceModel) returns (resp: Response<CollectionResourceModel>)
      ensures resp == UpdateResult(plan)
    {
      resp := Response(Some(plan), []);
    }

    /** `Delete` */
    method Delete(prior: CollectionResourceModel, connectError: Option<string>)
      returns (resp: Response<CollectionResourceModel>)
      modifies client
      ensures (client.store, resp) == DeleteResult(old(client.store), prior, connectError)
      ensures client.connected == (connectError.Some? && old(client.connected))
    {
      var err := client.Connect(connectError);
      if err.Some? {
        return Fail(ClientError, err.value);
      }
      var database := new Database(client, prior.database);
      if !database.Exists() {
        client.Disconnect();
        return Response(None, []);
      }
      var collection := database.Collection(prior.name);
      if !collection.Exists() {
        client.Disconnect();
        return Response(None, []);
      }
      if !collection.IsEmpty() && !prior.forceDestroy {
        client.Disconnect();
        return Response(None, [NotEmpty]);
      }
      var _ := collection.Drop();
      client.Disconnect();
      resp := Response(None, []);
    }
  }
}
