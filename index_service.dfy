/** The index resource and data source (internal/service/index), and the
    direction validator of its schema.

    The Id of an index is `databases/<d>/collections/<c>/indexes/<i>`, which
    NewId always refuses (it reads `parts[3]` of three tokens, or finds too
    many tokens): the read of an index never succeeds, so Create, Read and
    ImportState never record a state. The lookup by name uses the rendering
    of the Terraform string (`types.String.String()`), an input here as
    `render`. */
module IndexService {
  import opened Results
  import opened GoStrings
  import opened ResourceIds
  import opened Diagnostics
  import opened MongoStore
  import opened MongoIndex
  import opened MongoCollection
  import opened MongoDatabase
  import DatabaseService
  import CollectionService

  /** `IndexDataSourceModel` */
  datatype IndexDataSourceModel = IndexDataSourceModel(
    id: string, database: string, collection: string, field: string, direction: int,
    indexName: string, unique: bool)

  /** `IndexResourceModel` */
  datatype IndexResourceModel = IndexResourceModel(
    id: string, database: string, collection: string, field: string, direction: int,
    indexName: string, unique: bool, forceDestroy: bool)

  /** The attributes `ImportState` sets. */
  datatype IndexImport = IndexImport(database: string, collection: string, indexName: string)

  // ---------------------------------------------------------------------
  // The direction validator (validators.go)

  /** A configured `types.Int64`: null, unknown, or a known value. */
  datatype Int64Value = Null | Unknown | Known(value: int) {
    /** `ValueInt64`: the zero value unless known. */
    function ValueInt64(): int {
      if Known? then value else 0
    }
  }

  const DirectionDescription: string := "direction must be 1 or -1"

  /** `isDirection.ValidateInt64`: the diagnostics it appends. A null value
      and the values 1 and -1 pass; any other value, an unknown one included
      (it reads as 0), adds exactly one "Invalid Input Value" error. */
  function ValidateDirection(v: Int64Value): (r: seq<Diagnostic>)
    ensures r == [] <==> v.Null? || v == Known(1) || v == Known(-1)
    ensures r != [] ==> r == [Diagnostic(InvalidInputValue, DirectionDescription)]
  {
    if v.Null? then []
    else if v.ValueInt64() == 1 || v.ValueInt64() == -1 then []
    else [Diagnostic(InvalidInputValue, DirectionDescription)]
  }

  // ---------------------------------------------------------------------
  // index_operations.go

  function NotFound(field: string, direction: int): Diagnostic {
    Diagnostic(IndexNotFound, "Index on field " + field + " with direction " + FormatInt(direction) + " not found")
  }

  const NotConnected: Diagnostic := Diagnostic(ClientError, "Client is not connected")

  /** `CheckExistance`: the handle when `Exists` finds its index; otherwise
      "Index not found", worded with the handle's field and direction. */
  method CheckExistance(index: Index, diags: seq<Diagnostic>) returns (found: Index?, diags': seq<Diagnostic>)
    ensures found != null <==>
      Lookup(Indexes(index.client.store, index.database, index.collection), index.name, index.field,
             index.direction, index.unique).Some?
    ensures found != null ==> found == index && diags' == diags
    ensures found == null ==> diags' == diags + [NotFound(index.field, index.direction)]
  {
    var exists_ := index.Exists();
    if !exists_ {
      return null, diags + [NotFound(index.field, index.direction)];
    }
    return index, diags;
  }

  /** `CreateResourceId`: NewId of `databases/<d>/collections/<c>/indexes/<i>`. */
  function CreateResourceId(database: string, collection: string, index: string): IdString {
    FormatResourceId(IndexPath(database, collection, index))
  }

  /** No index Id is ever produced: NewId refuses every index path, and on
      plain names it panics reading `parts[3]`. */
  lemma CreateResourceIdNeverOk(database: string, collection: string, index: string)
    ensures !CreateResourceId(database, collection, index).IdOk?
    ensures PlainName(database) && PlainName(collection) && '/' !in index ==>
      CreateResourceId(database, collection, index) == IdPanic(3)
  {
    IndexPathNeverParsed(database, collection, index);
    if PlainName(database) && PlainName(collection) && '/' !in index {
      IndexPathOutOfRange(database, collection, index);
    }
  }

  /** What `dataSourceRead` does, given the store and whether the client is
      connected: the connection check, the database check, the collection
      check (on the database again), the by-name lookup of the rendered
      name, and the Id. Since the Id is never produced, the read never
      succeeds and never changes the model. */
  function DataSourceResult(st: Store, connected: bool, data: IndexDataSourceModel, render: string -> string)
    : (r: (IndexDataSourceModel, Outcome))
    ensures r.1 != Completed([]) && r.0 == data
    ensures !connected ==> r.1 == Completed([NotConnected])
    ensures connected && !DatabaseExists(st, data.database) ==>
      r.1 == Completed([DatabaseService.NotFound(data.database)])
    ensures connected && DatabaseExists(st, data.database) ==>
      (!SomeNamed(Indexes(st, data.database, data.collection), render(data.indexName)) && render(data.indexName) != "" ==>
         r.1 == Completed([NotFound("", 0)]))
    ensures connected && DatabaseExists(st, data.database) &&
            Lookup(Indexes(st, data.database, data.collection), render(data.indexName), "", 0, false).Some? &&
            PlainName(data.database) && PlainName(data.collection) && '/' !in data.indexName ==>
      r.1 == Panicked(3)
  {
    if !connected then (data, Completed([NotConnected]))
    else if !DatabaseExists(st, data.database) then (data, Completed([DatabaseService.NotFound(data.database)]))
    else if !DatabaseExists(st, data.database) then (data, Completed([CollectionService.NotFound(data.collection)]))
    else if Lookup(Indexes(st, data.database, data.collection), render(data.indexName), "", 0, false).None? then
      (data, Completed([NotFound("", 0)]))
    else
      CreateResourceIdNeverOk(data.database, data.collection, data.indexName);
      match CreateResourceId(data.database, data.collection, data.indexName)
      case IdOk(id) =>
        (IndexDataSourceModel(id, data.database, data.collection, "", 0, render(data.indexName), false), Completed([]))
      case IdError(m) => (data, Completed([Diagnostic(InvalidConfiguration, m)]))
      case IdPanic(k) => (data, Panicked(k))
  }

  function ToDataSource(data: IndexResourceModel): IndexDataSourceModel {
    IndexDataSourceModel(data.id, data.database, data.collection, data.field, data.direction, data.indexName, data.unique)
  }

  /** What `resourceRead` does: the data-source read on the seven shared
      fields, copied back; as that read never succeeds, so does this one. */
  function ResourceResult(st: Store, connected: bool, data: IndexResourceModel, render: string -> string)
    : (r: (IndexResourceModel, Outcome))
    ensures r.1 != Completed([]) && r.0 == data
    ensures r.1 == DataSourceResult(st, connected, ToDataSource(data), render).1
  {
    var (d, o) := DataSourceResult(st, connected, ToDataSource(data), render);
    (IndexResourceModel(d.id, d.database, d.collection, d.field, d.direction, d.indexName, d.unique, data.forceDestroy), o)
  }

  /** `dataSourceRead`. The model's last six fields are copied from the
      lookup handle, which `Index(name)` builds without field, direction or
      unique and nothing hydrates. */
  method DataSourceRead(client: Client, data: IndexDataSourceModel, render: string -> string)
    returns (data': IndexDataSourceModel, o: Outcome)
    ensures (data', o) == DataSourceResult(client.store, client.connected, data, render)
  {
    if !client.connected {
      return data, Completed([NotConnected]);
    }
    var database, diags := DatabaseService.CheckExistance(client, data.database, []);
    if database == null {
      assert diags == [DatabaseService.NotFound(data.database)];
      return data, Completed(diags);
    }
    var collection, diags2 := CollectionService.CheckExistance(database, data.collection, diags);
    if collection == null {
      return data, Completed(diags2);
    }
    var index := collection.Index(render(data.indexName));
    var found, diags3 := CheckExistance(index, diags2);
    if found == null {
      assert diags3 == [NotFound("", 0)];
      return data, Completed(diags3);
    }
    var resourceId := CreateResourceId(data.database, data.collection, data.indexName);
    match resourceId
    case IdError(m) =>
      return data, Completed([Diagnostic(InvalidConfiguration, m)]);
    case IdPanic(k) =>
      return data, Panicked(k);
    case IdOk(id) =>
      var collectionName := index.collection;
      var databaseName := index.database;
      return IndexDataSourceModel(id, databaseName, collectionName, index.field, index.direction, index.name, index.unique),
             Completed([]);
  }

  /** `resourceRead` */
  method ResourceRead(client: Client, data: IndexResourceModel, render: string -> string)
    returns (data': IndexResourceModel, o: Outcome)
    ensures (data', o) == ResourceResult(client.store, client.connected, data, render)
  {
    var d, diags := DataSourceRead(client, ToDataSource(data), render);
    data' := IndexResourceModel(d.id, d.database, d.collection, d.field, d.direction, d.indexName, d.unique,
                                data.forceDestroy);
    o := diags;
  }

  // ---------------------------------------------------------------------
  // The resource controllers, as functions of the store they start from

  /** The first half of `Create`: the index is ensured by a handle built from
      field, direction and unique (no name), and index_name becomes the
      handle's name: the driver's name for a new index, "" when a match was
      already there. */
  function EnsuredPlan(st: Store, plan: IndexResourceModel, generated: string): (r: Result<(Store, IndexResourceModel)>)
    ensures r.Ok? ==> r.value.1 == plan.(indexName := r.value.1.indexName)
    ensures ByField(Indexes(st, plan.database, plan.collection), plan.field, plan.direction, plan.unique).Some? ==>
      r == Ok((st, plan.(indexName := "")))
    ensures r.Ok? && ByField(Indexes(st, plan.database, plan.collection), plan.field, plan.direction, plan.unique).None? ==>
      r.value.1.indexName == generated
    ensures r.Ok? ==> ByField(Indexes(r.value.0, plan.database, plan.collection), plan.field, plan.direction, plan.unique).Some?
  {
    match EnsuredIndex(st, plan.database, plan.collection, "", plan.field, plan.direction, plan.unique, generated)
    case Err(m) => Err(m)
    case Ok((st', name)) =>
      EnsuredIsFound(st, plan.database, plan.collection, plan.field, plan.direction, plan.unique, generated);
      Ok((st', plan.(indexName := name)))
  }

  /** `Create`: the database check, the collection check (on the database),
      the ensured index, then the read, which never succeeds. */
  function CreateResult(st: Store, plan: IndexResourceModel, connectError: Option<string>, generated: string,
                        render: string -> string): (Store, Response<IndexResourceModel>)
  {
    if connectError.Some? then (st, Fail(ClientError, connectError.value))
    else if !DatabaseExists(st, plan.database) then (st, Response(None, [DatabaseService.NotFound(plan.database)]))
    else if !DatabaseExists(st, plan.database) then
      (st, Response(None, [CollectionService.NotFound(plan.collection)]))
    else
      match EnsuredPlan(st, plan, generated)
      case Err(m) => (st, Fail(ClientError, m))
      case Ok((st', plan')) =>
        var (data, o) := ResourceResult(st', true, plan', render);
        (st', Finish(data, o))
  }

  /** `Read` */
  function ReadResult(st: Store, prior: IndexResourceModel, connectError: Option<string>, render: string -> string)
    : Response<IndexResourceModel>
  {
    if connectError.Some? then Fail(ClientError, connectError.value)
    else
      var (data, o) := ResourceResult(st, true, prior, render);
      Finish(data, o)
  }

  /** `Update`: the plan is written to the state; no store operation. */
  function UpdateResult(plan: IndexResourceModel): (r: Response<IndexResourceModel>)
    ensures r == Response(Some(plan), [])
  {
    Response(Some(plan), [])
  }

  const Forbidden: Diagnostic :=
    Diagnostic(DeletionForbidden, "Index deletion is not allowed by default. Set force_destroy to true to delete the index.")

  /** `Delete`: a missing database or collection is already deleted;
      otherwise nothing is dropped without force_destroy, and with it the
      index named by the rendered index_name is dropped. */
  function DeleteResult(st: Store, prior: IndexResourceModel, connectError: Option<string>, render: string -> string)
    : (Store, Response<IndexResourceModel>)
  {
    if connectError.Some? then (st, Fail(ClientError, connectError.value))
    else if !DatabaseExists(st, prior.database) then (st, Response(None, []))
    else if !CollectionExists(st, prior.database, prior.collection) then (st, Response(None, []))
    else if !prior.forceDestroy then (st, Response(None, [Forbidden]))
    else
      match DropIndex(st, prior.database, prior.collection, render(prior.indexName))
      case Err(m) => (st, Fail(ClientError, m))
      case Ok(st') => (st', Response(None, []))
  }

  /** `ImportState`: database, collection and index segments are required;
      NewId never yields an index segment. */
  function ImportState(raw: string): Response<IndexImport> {
    match NewId(raw)
    case Malformed => Fail(InvalidImportId, FormatError)
    case OutOfRange(k) => Crashed(k)
    case Parsed(x) =>
      if x.database == "" then Fail(InvalidImportId, "Database name is required")
      else if x.collection == "" then Fail(InvalidImportId, "Collection name is required")
      else if x.index == "" then Fail(InvalidImportId, "Index ID is required")
      else Response(Some(IndexImport(x.database, x.collection, x.index)), [])
  }

  // ---------------------------------------------------------------------
  // Properties of the controllers

  /** Create checks only the database before touching the indexes: in a
      missing database it fails and changes nothing. */
  lemma CreateNeedsDatabase(st: Store, plan: IndexResourceModel, generated: string, render: string -> string)
    requires !DatabaseExists(st, plan.database)
    ensures CreateResult(st, plan, None, generated, render) == (st, Response(None, [DatabaseService.NotFound(plan.database)]))
  {
  }

  /** Create never records a state, yet the index it ensures is on the
      server afterwards; a matching index already there is left as it was. */
  lemma CreateOrphansIndex(st: Store, plan: IndexResourceModel, generated: string, render: string -> string)
    requires DatabaseExists(st, plan.database)
    requires EnsuredPlan(st, plan, generated).Ok?
    ensures var (st', resp) := CreateResult(st, plan, None, generated, render);
      && !Succeeded(resp)
      && ByField(Indexes(st', plan.database, plan.collection), plan.field, plan.direction, plan.unique).Some?
      && (ByField(Indexes(st, plan.database, plan.collection), plan.field, plan.direction, plan.unique).Some? ==> st' == st)
  {
  }

  /** A second Create adds no index: the store it leaves is the one the first
      left (the driver derives the same name from the same key both times). */
  lemma CreateTwice(st: Store, plan: IndexResourceModel, generated: string, render: string -> string)
    ensures var st1 := CreateResult(st, plan, None, generated, render).0;
      CreateResult(st1, plan, None, generated, render).0 == st1
  {
    CreateStore(st, plan, generated, render);
    if DatabaseExists(st, plan.database) && EnsuredPlan(st, plan, generated).Ok? {
      var st1 := EnsuredPlan(st, plan, generated).value.0;
      var specs1 := Indexes(st1, plan.database, plan.collection);
      assert ByField(specs1, plan.field, plan.direction, plan.unique).Some?;
      assert specs1 != [];
      DatabaseExistsWitness(st1, plan.database, plan.collection);
      CreateFound(st1, plan, generated, render);
    }
  }

  /** Create in a database where a matching index is found changes nothing. */
  lemma CreateFound(st: Store, plan: IndexResourceModel, generated: string, render: string -> string)
    requires DatabaseExists(st, plan.database)
    requires ByField(Indexes(st, plan.database, plan.collection), plan.field, plan.direction, plan.unique).Some?
    ensures CreateResult(st, plan, None, generated, render).0 == st
  {
    CreateStore(st, plan, generated, render);
  }

  /** The store Create leaves: the ensured index's, once the database is
      found and the index could be ensured. */
  lemma CreateStore(st: Store, plan: IndexResourceModel, generated: string, render: string -> string)
    ensures CreateResult(st, plan, None, generated, render).0 ==
      if DatabaseExists(st, plan.database) && EnsuredPlan(st, plan, generated).Ok?
      then EnsuredPlan(st, plan, generated).value.0 else st
  {
  }

  /** Read never records a state. */
  lemma ReadNeverSucceeds(st: Store, prior: IndexResourceModel, connectError: Option<string>, render: string -> string)
    ensures !Succeeded(ReadResult(st, prior, connectError, render))
  {
  }

  /** Delete of an index whose database or collection is gone succeeds and
      changes nothing. */
  lemma DeleteMissingParent(st: Store, prior: IndexResourceModel, render: string -> string)
    requires !CollectionExists(st, prior.database, prior.collection)
    ensures DeleteResult(st, prior, None, render) == (st, Response(None, []))
  {
  }

  /** Without force_destroy, Delete of an index in an existing collection
      always fails with "Deletion Forbidden", whatever the collection holds,
      and drops nothing; with it, the named index is dropped or the driver's
      error is reported with no change. */
  lemma DeleteGuard(st: Store, prior: IndexResourceModel, render: string -> string)
    requires CollectionExists(st, prior.database, prior.collection)
    ensures var (st', resp) := DeleteResult(st, prior, None, render);
      && (!prior.forceDestroy ==> st' == st && resp == Response(None, [Forbidden]))
      && (prior.forceDestroy && Succeeded(resp) ==>
            Indexes(st', prior.database, prior.collection) ==
              RemoveNamed(Indexes(st, prior.database, prior.collection), render(prior.indexName)))
      && (!Succeeded(resp) ==> st' == st)
  {
    DatabaseExistsWitness(st, prior.database, prior.collection);
  }

  /** ImportState never sets a state: NewId leaves the index segment empty
      on every identifier it accepts. */
  lemma ImportNeverSucceeds(raw: string)
    ensures !Succeeded(ImportState(raw))
  {
  }

  /** The index resource, over the shared client. */
  class IndexResource {
    const client: Client

    constructor (client: Client)
      ensures this.client == client
    {
      this.client := client;
    }

    /** `Create`, with the name the driver generates for a new index as an
        input. */
    method Create(plan: IndexResourceModel, connectError: Option<string>, generated: string, render: string -> string)
      returns (resp: Response<IndexResourceModel>)
      modifies client
      ensures (client.store, resp) == CreateResult(old(client.store), plan, connectError, generated, render)
      ensures client.connected == (connectError.Some? && old(client.connected))
    {
      var err := client.Connect(connectError);
      if err.Some? {
        return Fail(ClientError, err.value);
      }
      ghost var st := client.store;
      ghost var expected := CreateResult(st, plan, connectError, generated, render);
      var database, diags := DatabaseService.CheckExistance(client, plan.database, []);
      if database == null {
        assert diags == [DatabaseService.NotFound(plan.database)];
        resp := Response(None, diags);
        assert expected == (st, resp);
      } else {
        var collection, diags2 := CollectionService.CheckExistance(database, plan.collection, diags);
        if collection == null {
          resp := Response(None, diags2);
        } else {
          var index := collection.IndexFromField(plan.field, plan.direction, plan.unique);
          var ensureError := index.EnsureExistance(generated);
          if ensureError.Some? {
            assert EnsuredPlan(st, plan, generated) == Err(ensureError.value);
            resp := Fail(ClientError, ensureError.value);
            assert expected == (st, resp);
          } else {
            var named := plan.(indexName := index.name);
            assert EnsuredPlan(st, plan, generated) == Ok((client.store, named));
            var data, o := ResourceRead(client, named, render);
            resp := Finish(data, o);
            assert expected == (client.store, resp);
          }
        }
      }
      // the deferred Disconnect
      client.Disconnect();
    }

    /** `Read` */
    method Read(prior: IndexResourceModel, connectError: Option<string>, render: string -> string)
      returns (resp: Response<IndexResourceModel>)
      modifies client`connected
      ensures resp == ReadResult(client.store, prior, connectError, render)
      ensures client.connected == (connectError.Some? && old(client.connected))
    {
      var err := client.Connect(connectError);
      if err.Some? {
        return Fail(ClientError, err.value);
      }
      var data, o := ResourceRead(client, prior, render);
      client.Disconnect();
      resp := Finish(data, o);
    }

    /** `Update`: the plan becomes the state; the client and the server are
        not touched. */
    method Update(plan: IndexResourceModel) returns (resp: Response<IndexResourceModel>)
      ensures resp == UpdateResult(plan)
    {
      resp := Response(Some(plan), []);
    }

    /** `Delete` */
    method Delete(prior: IndexResourceModel, connectError: Option<string>, render: string -> string)
      returns (resp: Response<IndexResourceModel>)
      modifies client
      ensures (client.store, resp) == DeleteResult(old(client.store), prior, connectError, render)
      ensures client.connected == (connectError.Some? && old(client.connected))
    {
      var err := client.Connect(connectError);
      if err.Some? {
        return Fail(ClientError, err.value);
      }
      var database := new Database(client, prior.database);
      if !database.Exists() {
        client.Disconnect();
        return Response(None, []);
      }
      var collection := database.Collection(prior.collection);
      if !collection.Exists() {
        client.Disconnect();
        return Response(None, []);
      }
      if !prior.forceDestroy {
        client.Disconnect();
        return Response(None, [Forbidden]);
      }
      var index := collection.Index(render(prior.indexName));
      var dropError := index.Drop();
      client.Disconnect();
      if dropError.Some? {
        return Fail(ClientError, dropError.value);
      }
      resp := Response(None, []);
    }
  }
}
