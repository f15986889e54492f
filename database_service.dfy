/** The database resource and data source (internal/service/database): the
    existence check, the identifier, the two reads, and the resource's
    controllers. */
module DatabaseService {
  import opened Results
  import opened GoStrings
  import opened ResourceIds
  import opened Diagnostics
  import opened MongoStore
  import opened MongoDatabase

  /** `DatabaseDataSourceModel` */
  datatype DatabaseDataSourceModel = DatabaseDataSourceModel(name: string, id: string)

  /** `DatabaseResourceModel` */
  datatype DatabaseResourceModel = DatabaseResourceModel(name: string, id: string, forceDestroy: bool)

  /** The attribute `ImportState` sets. */
  datatype DatabaseImport = DatabaseImport(name: string)

  function NotFound(name: string): Diagnostic {
    Diagnostic(DatabaseNotFound, "Database " + name + " not found")
  }

  /** `CheckExistance`: the handle when the database exists; otherwise
      "Database Not Found" is appended and there is no handle. */
  method CheckExistance(client: Client, name: string, diags: seq<Diagnostic>)
    returns (database: Database?, diags': seq<Diagnostic>)
    ensures database != null <==> DatabaseExists(client.store, name)
    ensures database != null ==> fresh(database) && database.client == client && database.name == name && diags' == diags
    ensures database == null ==> diags' == diags + [NotFound(name)]
  {
    database := new Database(client, name);
    if !database.Exists() {
      return null, diags + [NotFound(name)];
    }
    diags' := diags;
  }

  /** `CreateResourceId`: NewId of `databases/<name>`, re-emitted. */
  function CreateResourceId(name: string): IdString {
    FormatResourceId(DatabasePath(name))
  }

  /** A plain, non-empty name yields `databases/<name>`. */
  lemma CreateResourceIdPath(name: string)
    ensures PlainName(name) && name != "" ==> CreateResourceId(name) == IdOk(DatabasePath(name))
  {
    if PlainName(name) && name != "" {
      DatabasePathRoundTrip(name);
    }
  }

  /** What `dataSourceRead` does on the store st: the model with its new Id,
      and the diagnostics (or the panic). The Id is set only when the
      database exists; on an error it is left as it was. */
  function DataSourceResult(st: Store, data: DatabaseDataSourceModel): (r: (DatabaseDataSourceModel, Outcome))
    ensures r.0.name == data.name
    ensures r.1 == Completed([]) ==> DatabaseExists(st, data.name)
    ensures r.1 != Completed([]) ==> r.0 == data
    ensures !DatabaseExists(st, data.name) ==> r == (data, Completed([NotFound(data.name)]))
    ensures DatabaseExists(st, data.name) && PlainName(data.name) && data.name != "" ==>
      r == (data.(id := DatabasePath(data.name)), Completed([]))
  {
    if !DatabaseExists(st, data.name) then (data, Completed([NotFound(data.name)]))
    else
      CreateResourceIdPath(data.name);
      match CreateResourceId(data.name)
      case IdOk(id) => (data.(id := id), Completed([]))
      case IdError(m) => (data, Completed([Diagnostic(InvalidConfiguration, m)]))
      case IdPanic(k) => (data, Panicked(k))
  }

  /** What `resourceRead` does: the data-source read on the name and Id, with
      the name kept and force_destroy untouched. */
  function ResourceResult(st: Store, data: DatabaseResourceModel): (r: (DatabaseResourceModel, Outcome))
    ensures r.0.name == data.name && r.0.forceDestroy == data.forceDestroy
    ensures r.1 != Completed([]) ==> r.0 == data
    ensures !DatabaseExists(st, data.name) ==> r == (data, Completed([NotFound(data.name)]))
    ensures DatabaseExists(st, data.name) && PlainName(data.name) && data.name != "" ==>
      r == (data.(id := DatabasePath(data.name)), Completed([]))
  {
    var (d, o) := DataSourceResult(st, DatabaseDataSourceModel(data.name, data.id));
    (data.(id := d.id, name := d.name), o)
  }

  /** `dataSourceRead` */
  method DataSourceRead(client: Client, data: DatabaseDataSourceModel) returns (data': DatabaseDataSourceModel, o: Outcome)
    ensures (data', o) == DataSourceResult(client.store, data)
  {
    var database, diags := CheckExistance(client, data.name, []);
    if database == null {
      assert diags == [NotFound(data.name)];
      return data, Completed(diags);
    }
    var resourceId := CreateResourceId(data.name);
    match resourceId
    case IdError(m) =>
      return data, Completed([Diagnostic(InvalidConfiguration, m)]);
    case IdPanic(k) =>
      return data, Panicked(k);
    case IdOk(id) =>
      return data.(id := id), Completed([]);
  }

  /** `resourceRead` */
  method ResourceRead(client: Client, data: DatabaseResourceModel) returns (data': DatabaseResourceModel, o: Outcome)
    ensures (data', o) == ResourceResult(client.store, data)
  {
    var d, diags := DataSourceRead(client, DatabaseDataSourceModel(data.name, data.id));
    data' := data.(id := d.id, name := d.name);
    o := diags;
  }

  // ---------------------------------------------------------------------
  // The resource controllers, as functions of the store they start from

  /** The store after `Create`, and its response: the database is ensured
      (only the placeholder collection is created when it is missing), then
      read back. */
  function CreateResult(st: Store, plan: DatabaseResourceModel, connectError: Option<string>)
    : (Store, Response<DatabaseResourceModel>)
  {
    if connectError.Some? then (st, Fail(ClientError, connectError.value))
    else
      var st' := if DatabaseExists(st, plan.name) then st
                 else PutCollection(st, plan.name, PlaceholderCollectionName, NewCollection);
      var (data, o) := ResourceResult(st', plan);
      (st', Finish(data, o))
  }

  /** `Read`: the resource read on the current store. */
  function ReadResult(st: Store, prior: DatabaseResourceModel, connectError: Option<string>)
    : Response<DatabaseResourceModel>
  {
    if connectError.Some? then Fail(ClientError, connectError.value)
    else
      var (data, o) := ResourceResult(st, prior);
      Finish(data, o)
  }

  /** `Update`: the plan is written to the state, and the store is not
      consulted at all. */
  function UpdateResult(plan: DatabaseResourceModel): (r: Response<DatabaseResourceModel>)
    ensures r == Response(Some(plan), [])
  {
    Response(Some(plan), [])
  }

  function ContainsData(name: string): Diagnostic {
    Diagnostic(DatabaseContainsData,
               "Database " + name + " contains collections, set force_destroy to true to destroy the database")
  }

  /** `Delete`: no existence check; a database holding more than the
      placeholder is dropped only with force_destroy. */
  function DeleteResult(st: Store, prior: DatabaseResourceModel, connectError: Option<string>)
    : (Store, Response<DatabaseResourceModel>)
  {
    if connectError.Some? then (st, Fail(ClientError, connectError.value))
    else if !DatabaseIsEmpty(st, prior.name) && !prior.forceDestroy then
      (st, Response(None, [ContainsData(prior.name)]))
    else (DropDatabase(st, prior.name), Response(None, []))
  }

  /** `ImportState`: the identifier must parse and name a database. */
  function ImportState(raw: string): Response<DatabaseImport> {
    match NewId(raw)
    case Malformed => Fail(InvalidImportId, FormatError)
    case OutOfRange(k) => Crashed(k)
    case Parsed(x) =>
      if x.database == "" then Fail(InvalidImportId, "Database name is required")
      else Response(Some(DatabaseImport(x.database)), [])
  }

  // ---------------------------------------------------------------------
  // Properties of the controllers

  /** Create leaves the database existing, changes nothing when it already
      existed, and records the Id `databases/<name>`. */
  lemma CreateRecordsId(st: Store, plan: DatabaseResourceModel)
    requires PlainName(plan.name) && plan.name != ""
    ensures var (st', resp) := CreateResult(st, plan, None);
      && DatabaseExists(st', plan.name)
      && (DatabaseExists(st, plan.name) ==> st' == st)
      && resp == Response(Some(plan.(id := DatabasePath(plan.name))), [])
  {
  }

  /** Create is idempotent: a second Create changes nothing and answers the
      same. */
  lemma CreateTwice(st: Store, plan: DatabaseResourceModel)
    ensures var (st1, resp1) := CreateResult(st, plan, None);
      CreateResult(st1, plan, None) == (st1, resp1)
  {
  }

  /** The force guard: a database holding data is dropped only with
      force_destroy; otherwise Delete fails and the store is unchanged. */
  lemma DeleteGuard(st: Store, prior: DatabaseResourceModel)
    ensures var (st', resp) := DeleteResult(st, prior, None);
      && (Succeeded(resp) <==> DatabaseIsEmpty(st, prior.name) || prior.forceDestroy)
      && (Succeeded(resp) ==> !DatabaseExists(st', prior.name))
      && (!Succeeded(resp) ==> st' == st && resp.diags == [ContainsData(prior.name)])
  {
  }

  /** A database that Create had to make holds only the placeholder, so
      Delete without force_destroy drops it. */
  lemma CreateThenDelete(st: Store, plan: DatabaseResourceModel)
    requires !DatabaseExists(st, plan.name) && !plan.forceDestroy
    ensures var (st1, _) := CreateResult(st, plan, None);
      var (st2, resp) := DeleteResult(st1, plan, None);
      Succeeded(resp) && !DatabaseExists(st2, plan.name)
  {
    PlaceholderOnly(st, plan.name);
  }

  /** Importing the Id the resource records gives back its name; an accepted
      identifier always names a database. */
  lemma ImportRoundTrip(name: string, raw: string)
    requires PlainName(name) && name != ""
    ensures ImportState(DatabasePath(name)) == Response(Some(DatabaseImport(name)), [])
    ensures Succeeded(ImportState(raw)) ==>
      Contains(raw, DatabasesKeyword) && ImportState(raw).state.value.name != ""
  {
    DatabasePathRoundTrip(name);
  }

  /** The database resource, over the shared client. */
  class DatabaseResource {
    const client: Client

    constructor (client: Client)
      ensures this.client == client
    {
      this.client := client;
    }

    /** `Create` */
    method Create(plan: DatabaseResourceModel, connectError: Option<string>)
      returns (resp: Response<DatabaseResourceModel>)
      modifies client
      ensures (client.store, resp) == CreateResult(old(client.store), plan, connectError)
      ensures client.connected == (connectError.Some? && old(client.connected))
    {
      var err := client.Connect(connectError);
      if err.Some? {
        return Fail(ClientError, err.value);
      }
      var database := new Database(client, plan.name);
      var _ := database.EnsureExistance();
      var data, o := ResourceRead(client, plan);
      client.Disconnect();
      resp := Finish(data, o);
    }

    /** `Read` */
    method Read(prior: DatabaseResourceModel, connectError: Option<string>)
      returns (resp: Response<DatabaseResourceModel>)
      modifies client`connected
      ensures resp == ReadResult(client.store, prior, connectError)
      ensures client.connected == (connectError.Some? && old(client.connected))
    {
      var err := client.Connect(connectError);
      if err.Some? {
        return Fail(ClientError, err.value);
      }
      var data, o := ResourceRead(client, prior);
      client.Disconnect();
      resp := Finish(data, o);
    }

    /** `Update`: the plan becomes the state; the client and the server are
        not touched. */
    method Update(plan: DatabaseResourceModel) returns (resp: Response<DatabaseResourceModel>)
      ensures resp == UpdateResult(plan)
    {
      resp := Response(Some(plan), []);
    }

    /** `Delete` */
    method Delete(prior: DatabaseResourceModel, connectError: Option<string>)
      returns (resp: Response<DatabaseResourceModel>)
      modifies client
      ensures (client.store, resp) == DeleteResult(old(client.store), prior, connectError)
      ensures client.connected == (connectError.Some? && old(client.connected))
    {
      var err := client.Connect(connectError);
      if err.Some? {
        return Fail(ClientError, err.value);
      }
      var database := new Database(client, prior.name);
      var isEmpty := database.IsEmpty();
      if !isEmpty && !prior.forceDestroy {
        client.Disconnect();
        return Response(None, [ContainsData(prior.name)]);
      }
      var _ := database.Drop();
      client.Disconnect();
      resp := Response(None, []);
    }
  }
}
