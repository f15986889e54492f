/** The document resource and data source (internal/service/document). The
    document is held in the Terraform state as JSON text: `parse` stands for
    `json.Unmarshal` of that text into a document and `encode` for
    `json.Marshal` of a stored one; both are inputs, and a nil document
    marshals to `null`. */
module DocumentService {
  import opened Results
  import opened GoStrings
  import opened ResourceIds
  import opened Diagnostics
  import opened MongoStore
  import opened MongoCollection
  import opened MongoDatabase
  import DatabaseService
  import CollectionService

  /** `DocumentDataSourceModel` */
  datatype DocumentDataSourceModel = DocumentDataSourceModel(
    database: string, collection: string, id: string, documentId: string, document: string)

  /** `DocumentResourceModel` */
  datatype DocumentResourceModel = DocumentResourceModel(
    id: string, database: string, collection: string, documentId: string, document: string)

  /** The attributes `ImportState` sets. */
  datatype DocumentImport = DocumentImport(database: string, collection: string, documentId: string)

  /** `json.Marshal` of what `FindById` returns: a nil document is `null`. */
  function Marshal(doc: Option<Document>, encode: Document -> Result<string>): Result<string> {
    if doc.None? then Ok("null") else encode(doc.value)
  }

  /** ObjectID hex (of either case) holds no '/' and ends in no keyword stem,
      since every stem ends in 's'. */
  lemma HexIsPlain(s: string)
    requires forall i :: 0 <= i < |s| ==> IsHexDigit(s[i])
    ensures PlainName(s)
  {
    assert forall i :: 0 <= i < |s| ==> s[i] != '/' && s[i] != 's';
    forall k | k in Keywords
      ensures Clean(s, k, '/')
    {
      var stem := k[..|k| - 1];
      assert stem != [] && stem[|stem| - 1] == 's';
      assert |stem| <= |s| ==> s[|s| - |stem|..][|stem| - 1] == s[|s| - 1];
    }
  }

  /** `CreateResourceId`: NewId of
      `databases/<d>/collections/<c>/documents/<documentId>`, re-emitted. */
  function CreateResourceId(database: string, collection: string, documentId: string): IdString {
    FormatResourceId(DocumentPath(database, collection, documentId))
  }

  /** Plain, non-empty names and an ObjectID yield the document path. */
  lemma CreateResourceIdPath(database: string, collection: string, documentId: string)
    requires CollectionService.PlainNames(database, collection)
    requires ParseObjectId(documentId).Some?
    ensures CreateResourceId(database, collection, documentId) == IdOk(DocumentPath(database, collection, documentId))
  {
    HexIsPlain(documentId);
    DocumentPathRoundTrip(database, collection, documentId);
  }

  /** What `dataSourceRead` does on the store st: the database check, the
      collection check (on the database again), the lookup of the document
      (without `_id`), its encoding, then the Id. The document is set before
      the Id is formatted. */
  function DataSourceResult(st: Store, data: DocumentDataSourceModel, encode: Document -> Result<string>)
    : (r: (DocumentDataSourceModel, Outcome))
    ensures r.0 == data.(document := r.0.document, id := r.0.id)
    ensures r.1 == Completed([]) ==> DatabaseExists(st, data.database)
    ensures !DatabaseExists(st, data.database) ==>
      r == (data, Completed([DatabaseService.NotFound(data.database)]))
    ensures DatabaseExists(st, data.database) && ParseObjectId(data.documentId).None? ==>
      r == (data, Completed([Diagnostic(ClientError, ObjectIdError(data.documentId))]))
    ensures DatabaseExists(st, data.database) && CollectionService.PlainNames(data.database, data.collection) &&
            ParseObjectId(data.documentId).Some? ==>
      var found := FindDocument(st, data.database, data.collection, data.documentId, false).value;
      match Marshal(found, encode)
      case Ok(e) =>
        r == (data.(document := e, id := DocumentPath(data.database, data.collection, data.documentId)), Completed([]))
      case Err(m) => r == (data, Completed([Diagnostic(InvalidJsonInput, m)]))
  {
    if !DatabaseExists(st, data.database) then (data, Completed([DatabaseService.NotFound(data.database)]))
    else if !DatabaseExists(st, data.database) then (data, Completed([CollectionService.NotFound(data.collection)]))
    else
      match FindDocument(st, data.database, data.collection, data.documentId, false)
      case Err(m) => (data, Completed([Diagnostic(ClientError, m)]))
      case Ok(found) =>
        match Marshal(found, encode)
        case Err(m) => (data, Completed([Diagnostic(InvalidJsonInput, m)]))
        case Ok(e) =>
          var data1 := data.(document := e);
          if CollectionService.PlainNames(data.database, data.collection) then
            CreateResourceIdPath(data.database, data.collection, data.documentId);
            Finish1(data1, CreateResourceId(data.database, data.collection, data.documentId))
          else Finish1(data1, CreateResourceId(data.database, data.collection, data.documentId))
  }

  /** The last step of `dataSourceRead`: the Id, or its error on a model
      whose document is already set. */
  function Finish1(data: DocumentDataSourceModel, id: IdString): (r: (DocumentDataSourceModel, Outcome))
    ensures id.IdOk? ==> r == (data.(id := id.value), Completed([]))
    ensures !id.IdOk? ==> r.0 == data && r.1 != Completed([])
  {
    match id
    case IdOk(x) => (data.(id := x), Completed([]))
    case IdError(m) => (data, Completed([Diagnostic(InvalidConfiguration, m)]))
    case IdPanic(k) => (data, Panicked(k))
  }

  /** A missing document is not an error: the read records `null`. */
  lemma ReadMissingDocument(st: Store, data: DocumentDataSourceModel, encode: Document -> Result<string>)
    requires DatabaseExists(st, data.database) && CollectionService.PlainNames(data.database, data.collection)
    requires ParseObjectId(data.documentId).Some?
    requires ParseObjectId(data.documentId).value !in Documents(st, data.database, data.collection)
    ensures DataSourceResult(st, data, encode) ==
      (data.(document := "null", id := DocumentPath(data.database, data.collection, data.documentId)), Completed([]))
  {
    assert FindDocument(st, data.database, data.collection, data.documentId, false) == Ok(None);
  }

  /** A stored document is read back without its `_id`. */
  lemma ReadStoredDocument(st: Store, data: DocumentDataSourceModel, encode: Document -> Result<string>)
    requires DatabaseExists(st, data.database) && CollectionService.PlainNames(data.database, data.collection)
    requires ParseObjectId(data.documentId).Some?
    requires ParseObjectId(data.documentId).value in Documents(st, data.database, data.collection)
    requires encode(Documents(st, data.database, data.collection)[ParseObjectId(data.documentId).value] - {IdField}).Ok?
    ensures var stored := Documents(st, data.database, data.collection)[ParseObjectId(data.documentId).value];
      DataSourceResult(st, data, encode) ==
        (data.(document := encode(stored - {IdField}).value,
               id := DocumentPath(data.database, data.collection, data.documentId)),
         Completed([]))
  {
  }

  function ToDataSource(data: DocumentResourceModel): DocumentDataSourceModel {
    DocumentDataSourceModel(data.database, data.collection, data.id, data.documentId, data.document)
  }

  function FromDataSource(d: DocumentDataSourceModel): DocumentResourceModel {
    DocumentResourceModel(d.id, d.database, d.collection, d.documentId, d.document)
  }

  /** What `resourceRead` does: the data-source read on the five fields,
      copied back. */
  function ResourceResult(st: Store, data: DocumentResourceModel, encode: Document -> Result<string>)
    : (r: (DocumentResourceModel, Outcome))
    ensures r.0 == data.(document := r.0.document, id := r.0.id)
    ensures r.1 == DataSourceResult(st, ToDataSource(data), encode).1
    ensures r.0 == FromDataSource(DataSourceResult(st, ToDataSource(data), encode).0)
  {
    var (d, o) := DataSourceResult(st, ToDataSource(data), encode);
    (FromDataSource(d), o)
  }

  /** `dataSourceRead` */
  method DataSourceRead(client: Client, data: DocumentDataSourceModel, encode: Document -> Result<string>)
    returns (data': DocumentDataSourceModel, o: Outcome)
    ensures (data', o) == DataSourceResult(client.store, data, encode)
  {
    var database, diags := DatabaseService.CheckExistance(client, data.database, []);
    if database == null {
      assert diags == [DatabaseService.NotFound(data.database)];
      return data, Completed(diags);
    }
    var collection, diags2 := CollectionService.CheckExistance(database, data.collection, diags);
    if collection == null {
      return data, Completed(diags2);
    }
    var document := collection.FindById(data.documentId, None);
    if document.Err? {
      return data, Completed([Diagnostic(ClientError, document.message)]);
    }
    var encoded := Marshal(document.value, encode);
    if encoded.Err? {
      return data, Completed([Diagnostic(InvalidJsonInput, encoded.message)]);
    }
    data' := data.(document := encoded.value);
    if CollectionService.PlainNames(data.database, data.collection) {
      CreateResourceIdPath(data.database, data.collection, data.documentId);
    }
    var resourceId := CreateResourceId(data.database, data.collection, data.documentId);
    match resourceId
    case IdError(m) =>
      o := Completed([Diagnostic(InvalidConfiguration, m)]);
    case IdPanic(k) =>
      o := Panicked(k);
    case IdOk(id) =>
      data' := data'.(id := id);
      o := Completed([]);
  }

  /** `resourceRead` */
  method ResourceRead(client: Client, data: DocumentResourceModel, encode: Document -> Result<string>)
    returns (data': DocumentResourceModel, o: Outcome)
    ensures (data', o) == ResourceResult(client.store, data, encode)
  {
    var d, diags := DataSourceRead(client, ToDataSource(data), encode);
    data' := FromDataSource(d);
    o := diags;
  }

  // ---------------------------------------------------------------------
  // The resource controllers, as functions of the store they start from

  /** `Create`: the database check, the collection check (on the database),
      the parse of the document, its insertion under its own ObjectID `_id`
      or the one the driver generates, and the read back under that id. */
  function CreateResult(st: Store, plan: DocumentResourceModel, connectError: Option<string>,
                        parse: string -> Result<Document>, encode: Document -> Result<string>,
                        generated: ObjectIdHex): (Store, Response<DocumentResourceModel>)
  {
    if connectError.Some? then (st, Fail(ClientError, connectError.value))
    else if !DatabaseExists(st, plan.database) then (st, Response(None, [DatabaseService.NotFound(plan.database)]))
    else if !DatabaseExists(st, plan.database) then
      (st, Response(None, [CollectionService.NotFound(plan.collection)]))
    else
      match parse(plan.document)
      case Err(m) => (st, Fail(InvalidJsonInput, m))
      case Ok(doc) =>
        match InsertDocument(st, plan.database, plan.collection, doc, generated)
        case Err(m) => (st, Fail(ClientError, m))
        case Ok(st') =>
          var (data, o) := ResourceResult(st', plan.(documentId := InsertedKey(doc, generated)), encode);
          (st', Finish(data, o))
  }

  /** `Read` */
  function ReadResult(st: Store, prior: DocumentResourceModel, connectError: Option<string>,
                      encode: Document -> Result<string>): Response<DocumentResourceModel>
  {
    if connectError.Some? then Fail(ClientError, connectError.value)
    else
      var (data, o) := ResourceResult(st, prior, encode);
      Finish(data, o)
  }

  /** `Update`: the checks and the parse as in Create, then `$set` of the
      parsed fields on the stored document_id, then the read. */
  function UpdateResult(st: Store, plan: DocumentResourceModel, connectError: Option<string>,
                        parse: string -> Result<Document>, encode: Document -> Result<string>)
    : (Store, Response<DocumentResourceModel>)
  {
    if connectError.Some? then (st, Fail(ClientError, connectError.value))
    else if !DatabaseExists(st, plan.database) then (st, Response(None, [DatabaseService.NotFound(plan.database)]))
    else if !DatabaseExists(st, plan.database) then
      (st, Response(None, [CollectionService.NotFound(plan.collection)]))
    else
      match parse(plan.document)
      case Err(m) => (st, Fail(InvalidJsonInput, m))
      case Ok(update) =>
        match ParseObjectId(plan.documentId)
        case None => (st, Fail(ClientError, ObjectIdError(plan.documentId)))
        case Some(key) =>
          match SetFields(st, plan.database, plan.collection, key, update)
          case Err(m) => (st, Fail(ClientError, m))
          case Ok(st') =>
            var (data, o) := ResourceResult(st', plan, encode);
            (st', Finish(data, o))
  }

  /** `Delete`: a missing database or collection is already deleted;
      otherwise the document with that id is deleted, if there is one. */
  function DeleteResult(st: Store, prior: DocumentResourceModel, connectError: Option<string>)
    : (Store, Response<DocumentResourceModel>)
  {
    if connectError.Some? then (st, Fail(ClientError, connectError.value))
    else if !DatabaseExists(st, prior.database) then (st, Response(None, []))
    else if !CollectionExists(st, prior.database, prior.collection) then (st, Response(None, []))
    else
      match ParseObjectId(prior.documentId)
      case None => (st, Fail(ClientError, ObjectIdError(prior.documentId)))
      case Some(key) => (DeleteDocument(st, prior.database, prior.collection, key), Response(None, []))
  }

  /** `ImportState`: database, collection and document segments are all
      required. */
  function ImportState(raw: string): Response<DocumentImport> {
    match NewId(raw)
    case Malformed => Fail(InvalidImportId, FormatError)
    case OutOfRange(k) => Crashed(k)
    case Parsed(x) =>
      if x.database == "" then Fail(InvalidImportId, "Database name is required")
      else if x.collection == "" then Fail(InvalidImportId, "Collection name is required")
      else if x.document == "" then Fail(InvalidImportId, "Document ID is required")
      else Response(Some(DocumentImport(x.database, x.collection, x.document)), [])
  }

  // ---------------------------------------------------------------------
  // Properties of the controllers

  /** Create and Update stop at a missing database, before parsing or
      writing. */
  lemma WritesNeedDatabase(st: Store, plan: DocumentResourceModel, parse: string -> Result<Document>,
                           encode: Document -> Result<string>, generated: ObjectIdHex)
    requires !DatabaseExists(st, plan.database)
    ensures CreateResult(st, plan, None, parse, encode, generated) ==
      (st, Response(None, [DatabaseService.NotFound(plan.database)]))
    ensures UpdateResult(st, plan, None, parse, encode) ==
      (st, Response(None, [DatabaseService.NotFound(plan.database)]))
  {
  }

  /** Text that does not parse is refused by Create and Update, which then
      write nothing. */
  lemma WritesNeedJson(st: Store, plan: DocumentResourceModel, parse: string -> Result<Document>,
                       encode: Document -> Result<string>, generated: ObjectIdHex)
    requires DatabaseExists(st, plan.database) && parse(plan.document).Err?
    ensures CreateResult(st, plan, None, parse, encode, generated) ==
      (st, Fail(InvalidJsonInput, parse(plan.document).message))
    ensures UpdateResult(st, plan, None, parse, encode) ==
      (st, Fail(InvalidJsonInput, parse(plan.document).message))
  {
  }

  /** Create inserts exactly the parsed document under its ObjectID (its
      own `_id`, or else the generated one), sets document_id to it, reads
      the document back as it was given, without `_id`, and records the Id
      `.../documents/<id>`. */
  lemma CreateRecordsId(st: Store, plan: DocumentResourceModel, parse: string -> Result<Document>,
                        encode: Document -> Result<string>, generated: ObjectIdHex)
    requires DatabaseExists(st, plan.database) && CollectionService.PlainNames(plan.database, plan.collection)
    requires parse(plan.document).Ok?
    requires InsertDocument(st, plan.database, plan.collection, parse(plan.document).value, generated).Ok?
    requires encode(parse(plan.document).value - {IdField}).Ok?
    ensures var doc := parse(plan.document).value;
      var key := InsertedKey(doc, generated);
      var (st', resp) := CreateResult(st, plan, None, parse, encode, generated);
      && (IdField !in doc ==> key == generated)
      && (IdField in doc ==> key == doc[IdField].hex)
      && Documents(st', plan.database, plan.collection) ==
           Documents(st, plan.database, plan.collection)[key := doc[IdField := ObjectId(key)]]
      && resp == Response(Some(plan.(documentId := key, document := encode(doc - {IdField}).value,
                                     id := DocumentPath(plan.database, plan.collection, key))), [])
  {
    var doc := parse(plan.document).value;
    var key := InsertedKey(doc, generated);
    var st' := InsertDocument(st, plan.database, plan.collection, doc, generated).value;
    ParseHex(key);
    assert doc[IdField := ObjectId(key)] - {IdField} == doc - {IdField};
    DatabaseExistsWitness(st', plan.database, plan.collection) by {
      assert key in Documents(st', plan.database, plan.collection);
    }
    ReadStoredDocument(st', ToDataSource(plan.(documentId := key)), encode);
  }

  /** A successful Update has set every parsed field on the stored document
      and kept its other fields; a failed one has written nothing. */
  lemma UpdateApplies(st: Store, plan: DocumentResourceModel, parse: string -> Result<Document>,
                      encode: Document -> Result<string>)
    ensures var (st', resp) := UpdateResult(st, plan, None, parse, encode);
      && (parse(plan.document).Err? || ParseObjectId(plan.documentId).None? ==> st' == st)
      && (st' != st ==>
            && parse(plan.document).Ok? && ParseObjectId(plan.documentId).Some?
            && (var key := ParseObjectId(plan.documentId).value;
                && key in Documents(st, plan.database, plan.collection)
                && key in Documents(st', plan.database, plan.collection)
                && SetApplied(Documents(st, plan.database, plan.collection)[key], parse(plan.document).value,
                              Documents(st', plan.database, plan.collection)[key])
                && Documents(st', plan.database, plan.collection) ==
                     Documents(st, plan.database, plan.collection)[key := Documents(st', plan.database, plan.collection)[key]]))
  {
    var (st', resp) := UpdateResult(st, plan, None, parse, encode);
    if DatabaseExists(st, plan.database) && parse(plan.document).Ok? && ParseObjectId(plan.documentId).Some? {
      var key := ParseObjectId(plan.documentId).value;
      var r := SetFields(st, plan.database, plan.collection, key, parse(plan.document).value);
      if r.Ok? {
        assert st' == r.value;
      } else {
        assert st' == st;
      }
    } else {
      assert st' == st;
    }
  }

  /** Delete of a document whose database or collection is gone succeeds and
      changes nothing. */
  lemma DeleteMissingParent(st: Store, prior: DocumentResourceModel)
    requires !CollectionExists(st, prior.database, prior.collection)
    ensures DeleteResult(st, prior, None) == (st, Response(None, []))
  {
  }

  /** A successful Delete leaves no document under that id, and deleting
      twice is the same as deleting once. */
  lemma DeleteTwice(st: Store, prior: DocumentResourceModel)
    ensures var (st1, resp1) := DeleteResult(st, prior, None);
      && (Succeeded(resp1) && ParseObjectId(prior.documentId).Some? ==>
            ParseObjectId(prior.documentId).value !in Documents(st1, prior.database, prior.collection))
      && DeleteResult(st1, prior, None) == (st1, resp1)
  {
    var (st1, resp1) := DeleteResult(st, prior, None);
    if DatabaseExists(st, prior.database) && CollectionExists(st, prior.database, prior.collection) &&
       ParseObjectId(prior.documentId).Some? {
      var key := ParseObjectId(prior.documentId).value;
      MongoStore.DeleteTwice(st, prior.database, prior.collection, key);
      DatabaseExistsWitness(st1, prior.database, prior.collection);
    }
  }

  /** Importing the Id the resource records gives back its three names. */
  lemma ImportRoundTrip(database: string, collection: string, documentId: string)
    requires CollectionService.PlainNames(database, collection) && ParseObjectId(documentId).Some?
    ensures ImportState(DocumentPath(database, collection, documentId)) ==
      Response(Some(DocumentImport(database, collection, documentId)), [])
  {
    HexIsPlain(documentId);
    DocumentPathRoundTrip(database, collection, documentId);
  }

  /** The document resource, over the shared client. */
  class DocumentResource {
    const client: Client

    constructor (client: Client)
      ensures this.client == client
    {
      this.client := client;
    }

    /** `Create`, with the ObjectID the driver generates as an input. */
    method Create(plan: DocumentResourceModel, connectError: Option<string>, parse: string -> Result<Document>,
                  encode: Document -> Result<string>, generated: ObjectIdHex)
      returns (resp: Response<DocumentResourceModel>)
      modifies client
      ensures (client.store, resp) == CreateResult(old(client.store), plan, connectError, parse, encode, generated)
      ensures client.connected == (connectError.Some? && old(client.connected))
    {
      var err := client.Connect(connectError);
      if err.Some? {
        return Fail(ClientError, err.value);
      }
      var database, diags := DatabaseService.CheckExistance(client, plan.database, []);
      if database == null {
        assert diags == [DatabaseService.NotFound(plan.database)];
        resp := Response(None, diags);
      } else {
        var collection, diags2 := CollectionService.CheckExistance(database, plan.collection, diags);
        if collection == null {
          resp := Response(None, diags2);
        } else {
          var document := parse(plan.document);
          if document.Err? {
            resp := Fail(InvalidJsonInput, document.message);
          } else {
            var oid := collection.InsertOne(document.value, generated);
            if oid.Err? {
              resp := Fail(ClientError, oid.message);
            } else {
              var data, o := ResourceRead(client, plan.(documentId := oid.value), encode);
              resp := Finish(data, o);
            }
          }
        }
      }
      // the deferred Disconnect
      client.Disconnect();
    }

    /** `Read` */
    method Read(prior: DocumentResourceModel, connectError: Option<string>, encode: Document -> Result<string>)
      returns (resp: Response<DocumentResourceModel>)
      modifies client`connected
      ensures resp == ReadResult(client.store, prior, connectError, encode)
      ensures client.connected == (connectError.Some? && old(client.connected))
    {
      var err := client.Connect(connectError);
      if err.Some? {
        return Fail(ClientError, err.value);
      }
      var data, o := ResourceRead(client, prior, encode);
      client.Disconnect();
      resp := Finish(data, o);
    }

    /** `Update` */
    method Update(plan: DocumentResourceModel, connectError: Option<string>, parse: string -> Result<Document>,
                  encode: Document -> Result<string>)
      returns (resp: Response<DocumentResourceModel>)
      modifies client
      ensures (client.store, resp) == UpdateResult(old(client.store), plan, connectError, parse, encode)
      ensures client.connected == (connectError.Some? && old(client.connected))
    {
      var err := client.Connect(connectError);
      if err.Some? {
        return Fail(ClientError, err.value);
      }
      var database, diags := DatabaseService.CheckExistance(client, plan.database, []);
      if database == null {
        assert diags == [DatabaseService.NotFound(plan.database)];
        resp := Response(None, diags);
      } else {
        var collection, diags2 := CollectionService.CheckExistance(database, plan.collection, diags);
        if collection == null {
          resp := Response(None, diags2);
        } else {
          var document := parse(plan.document);
          if document.Err? {
            resp := Fail(InvalidJsonInput, document.message);
          } else {
            var updateError := collection.UpdateByID(plan.documentId, document.value);
            if updateError.Some? {
              resp := Fail(ClientError, updateError.value);
            } else {
              var data, o := ResourceRead(client, plan, encode);
              resp := Finish(data, o);
            }
          }
        }
      }
      // the deferred Disconnect
      client.Disconnect();
    }

    /** `Delete` */
    method Delete(prior: DocumentResourceModel, connectError: Option<string>)
      returns (resp: Response<DocumentResourceModel>)
      modifies client
      ensures (client.store, resp) == DeleteResult(old(client.store), prior, connectError)
      ensures client.connected == (connectError.Some? && old(client.connected))
    {
      var err := client.Connect(connectError);
      if err.Some? {
        return Fail(ClientError, err.value);
      }
      var database := new Database(client, prior.database);
      if !database.Exists() {
        client.Disconnect();
        return Response(None, []);
      }
      var collection := database.Collection(prior.collection);
      if !collection.Exists() {
        client.Disconnect();
        return Response(None, []);
      }
      var deleteError := collection.DeleteByID(prior.documentId);
      client.Disconnect();
      if deleteError.Some? {
        return Fail(ClientError, deleteError.value);
      }
      resp := Response(None, []);
    }
  }
}
