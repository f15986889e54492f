# terraform-provider-mongodb, modelled in Dafny

The Terraform provider for MongoDB manages four kinds of resource:
databases, collections, indexes and documents. It also offers data sources
that read them back and list them. This project models the provider's
decision logic over an in-memory MongoDB server. The server is a map from
database name to a map from collection name to a record. Each record holds
the collection's documents, keyed by ObjectID hex, and its index
specifications, in the order the server lists them. The model covers:

- **The identifier codec.** `NewId` parses a resource identifier and
  `String` re-emits it (`ResourceIds`, over the `strings` functions in
  `GoStrings`).
- **The client handles.** `Database`, `Collection` and `Index` are classes
  over one shared `Client` object. `Client` holds the server and the
  connection flag (`MongoStore`, `MongoDatabase`, `MongoCollection`,
  `MongoIndex`).
- **The four services.** For each service the model has:
  - the existence checks;
  - the identifier helpers;
  - the two reads;
  - the controllers `Create`, `Read`, `Update`, `Delete` and `ImportState`
    (`DatabaseService`, `CollectionService`, `IndexService`,
    `DocumentService`).
- **The two listing data sources** (`DatabasesListing`,
  `CollectionsListing`).
- **The utilities:**
  - the direction validator (in `IndexService`);
  - the replace chain (`Replace`);
  - the indentation sanitiser (`Indent`).

Each controller is a method of a resource class that changes
`client.store`. It is proved equal to a function of the store it starts
from. The lemmas state the controllers' properties about those functions:
the guards, idempotence, "a missing parent is already deleted" and the
import round trips. Each read is a method without side effects, proved
equal to a function of the store. Each loop of the source is a `for` loop
proved against a function: the sanitiser's two loops, the listings'
filters, the index matchers and the replace chain's fold.

Several behaviours of the code are modelled as written:

- **Collection existence.** The collection services' `CheckExistance` asks
  whether the *database* exists. A read of a missing collection in an
  existing database therefore succeeds
  (`CollectionService.ReadIgnoresCollection`). Create and Update of an index
  or a document check only the database before they write.
- **Index identifiers.** `NewId` of `databases/d/collections/c/indexes/i`
  always fails. Either it panics reading `parts[3]` of three tokens, or it
  finds too many tokens. So the index read, and with it the index
  resource's Create, Read and ImportState, never succeeds:
  - `IndexService.CreateResourceIdNeverOk`
  - `IndexService.ReadNeverSucceeds`
  - `IndexService.ImportNeverSucceeds`

  A Go panic is an explicit outcome of the model (`OutOfRange`, `Panicked`
  and `Crashed`), not a precondition.

  Even so, the index Create has put the index on the server by the time the
  read fails (`IndexService.CreateOrphansIndex`).
- **Unhydrated index handle.** The index read looks the index up by name
  only, through a handle that nothing hydrates. So the field, direction
  and unique it would report are `""`, `0` and `false`.

Go indexes strings by byte and the model indexes them by character. The two
agree everywhere the core indexes a string. That is after a prefix of ASCII
spaces in the sanitiser, and after the ASCII keywords and `/` in the codec.

## Model

| member | source | states |
|---|---|---|
| ResourceIds.NewId | internal/common/resourceutils/id.go:18-57 | parsing fails exactly when the stripped identifier splits into more than three tokens; a panic reads position 1, 2 or 3 at or beyond the token count; a parsed segment is non-empty only if its keyword occurs in the input, holds no '/', and the index segment is always empty |
| ResourceIds.ToString | internal/common/resourceutils/id.go:75-90 | the identifier is written as "" exactly when every segment is empty |
| ResourceIds.ToStringPaths | internal/common/resourceutils/id.go:75-90 | the unfolding of String on the path shapes the resources format (`databases/d`, then `/collections/c`, `/documents/x`, `/indexes/i`), on which the round-trip lemmas rest |
| ResourceIds.RoundTrip | internal/common/resourceutils/id.go:18-90 | NewId reads back exactly the identifier String writes, for every identifier with plain segments, no gap and no index segment |
| ResourceIds.DatabasePathRoundTrip | internal/common/resourceutils/id.go:18-94 | `databases/d` parses to database d and is re-emitted unchanged |
| ResourceIds.CollectionPathRoundTrip | internal/common/resourceutils/id.go:18-94 | `databases/d/collections/c` parses to (d, c) and is re-emitted unchanged |
| ResourceIds.DocumentPathRoundTrip | internal/common/resourceutils/id.go:18-94 | `databases/d/collections/c/documents/x` parses to (d, c, x) and is re-emitted unchanged |
| ResourceIds.PositionNotKeyword | internal/common/resourceutils/id.go:38-46 | tokens are assigned by position whatever the keyword order: `collections/c/databases/d` has database c and collection d |
| ResourceIds.IndexPathOutOfRange | internal/common/resourceutils/id.go:29-49 | an index path with plain names strips to three tokens and panics reading `parts[3]` |
| ResourceIds.IndexPathNeverParsed | internal/common/resourceutils/id.go:47-49 | no index path is ever parsed, whatever its names |
| ResourceIds.LoneCollectionOutOfRange | internal/common/resourceutils/id.go:41-43 | `collections/c` leaves one token and panics reading `parts[1]` |
| ResourceIds.FormatResourceId | internal/service/database/database_operations.go:29-35 | an identifier helper yields a path exactly when NewId parses its input, and panics exactly when NewId does |
| Diagnostics.Finish | internal/service/database/resource_database.go:119-126 | the state is written, with the read model, exactly when the read reported no error; a read panic is a controller panic |
| MongoStore.ParseObjectId | internal/common/mongoclient/collection.go:141-144 | an id is accepted exactly when it is 24 hex digits of either case, and names the ObjectID of their lowercase form |
| MongoStore.ParseHex | internal/common/mongoclient/collection.go:176-180 | the hex an ObjectID prints parses back to that ObjectID |
| MongoStore.ParseIgnoresCase | internal/common/mongoclient/collection.go:141-144 | ids that differ only in the case of their hex digits name the same ObjectID |
| MongoStore.ObjectIdError | internal/common/mongoclient/collection.go:141-144 | the error `ObjectIDFromHex` returns: `ErrInvalidHex`'s text exactly when the length is not 24, and otherwise `hex.Decode`'s invalid-byte error for the first character that is not a hex digit |
| MongoStore.ObjectIdErrors | internal/common/mongoclient/collection.go:141-144 | a 24-character id of `z`s gets the invalid-byte error written `U+007A 'z'`, and `abc` gets `ErrInvalidHex` |
| MongoStore.LastDigitError | internal/common/mongoclient/collection.go:141-144 | the invalid-byte error names the first bad digit even when it is the last one |
| MongoStore.FindDocument | internal/common/mongoclient/collection.go:139-163 | malformed hex is the error `ObjectIdError` gives; a missing document is no document and no error; a found one comes without `_id` unless `_id` is asked for |
| MongoStore.CreateCollection | internal/common/mongoclient/collection.go:88-90 | creating fails exactly on an existing collection; otherwise the new collection is empty with the `_id_` index and nothing else changes |
| MongoStore.DropDatabase | internal/common/mongoclient/database.go:89-91 | the database and all its collections are gone; other databases are unchanged |
| MongoStore.DropCollection | internal/common/mongoclient/collection.go:95-97 | the collection is gone; nothing else changes |
| MongoStore.InsertDocument | internal/common/mongoclient/collection.go:165-181 | a document without `_id` is stored under the generated ObjectID, with `_id` set to it; one whose `_id` is an ObjectID is stored as given under that ObjectID; an `_id` of any other type gives "failed to convert InsertedID to ObjectID"; a duplicate ObjectID is refused; only that collection changes |
| MongoStore.SetFields | internal/common/mongoclient/collection.go:194-196 | `$set`: every field of the update is set on the matching document and its other fields are kept; no match changes nothing and is no error; changing `_id` is refused |
| MongoStore.DeleteDocument | internal/common/mongoclient/collection.go:204-206 | at most the document with that id is removed; a missing one is no error |
| MongoStore.DeleteTwice | internal/common/mongoclient/collection.go:199-207 | deleting a document twice is the same as deleting it once |
| MongoStore.CreateIndex | internal/common/mongoclient/index.go:221-232 | the index {field: direction} with the unique option is appended under the generated name, unless an identical index is already there; the server holds an index with that key and option afterwards |
| MongoStore.DropIndex | internal/common/mongoclient/index.go:235-238 | the named index is removed; a missing collection, `_id_` or an unknown name is an error |
| MongoStore.Client.Connect | internal/common/mongoclient/client.go:42-55 | the outcome of dialing is the error returned; the client is connected unless that failed |
| MongoStore.Client.Disconnect | internal/common/mongoclient/client.go:57-64 | the client is no longer connected |
| MongoIndex.UniqueMatchesOption | internal/common/mongoclient/index.go:170 | the by-field unique test is equality with the option, an absent option counting as false |
| MongoIndex.ByName | internal/common/mongoclient/index.go:134-166 | the first specification with that name, its field and direction from its first key element, unique only if the option is present and true; none is no match |
| MongoIndex.ByField | internal/common/mongoclient/index.go:168-189 | the first specification that passes the unique test and holds the key element (field, direction); the report has its name and the requested field, direction and unique |
| MongoIndex.Index.FindIndexByName | internal/common/mongoclient/index.go:134-166 | the loop returns the by-name lookup |
| MongoIndex.Index.FindIndexByField | internal/common/mongoclient/index.go:168-189 | the nested loops return the by-field lookup |
| MongoIndex.Index.GetSpec | internal/common/mongoclient/index.go:103-132 | a handle without a name is looked up by field, one with a name by name alone; no match is none, not an error |
| MongoIndex.Index.Exists | internal/common/mongoclient/index.go:199-205 | exists exactly when GetSpec finds a specification |
| MongoIndex.Index.Hydrate | internal/common/mongoclient/index.go:191-197 | all four handle fields are overwritten by the report |
| MongoIndex.Index.EnsureExistance | internal/common/mongoclient/index.go:207-233 | when the handle finds its index nothing changes; otherwise an unset field or direction is an error and nothing changes; else the index is created and the handle takes its name |
| MongoIndex.EnsureTwice | internal/common/mongoclient/index.go:207-215 | a second EnsureExistance on the handle the first leaves changes neither the server nor the name |
| MongoIndex.EnsureThenByField | internal/common/mongoclient/index.go:207-232 | after ensuring by field, a fresh handle for the same field, direction and unique adds no index |
| MongoIndex.EnsuredIsFound | internal/common/mongoclient/index.go:207-232 | after ensuring by field, the by-field lookup finds an index |
| MongoIndex.CreatedIsFound | internal/common/mongoclient/index.go:221-232 | the index created is found both by its name and by its field |
| MongoIndex.Index.Drop | internal/common/mongoclient/index.go:235-238 | the handle's name is dropped, or the error is returned with no change |
| MongoCollection.Collection.Exists | internal/common/mongoclient/collection.go:65-75 | true exactly when the collection exists |
| MongoCollection.Collection.IsEmpty | internal/common/mongoclient/collection.go:99-106 | true exactly when the collection holds no document |
| MongoCollection.Collection.FindById | internal/common/mongoclient/collection.go:139-163 | the lookup, with `_id` kept only when options are given and ask for it |
| MongoCollection.Collection.EnsureExistance | internal/common/mongoclient/collection.go:77-93 | an existing collection is untouched; a missing one is created; afterwards it exists |
| MongoCollection.Collection.Drop | internal/common/mongoclient/collection.go:95-97 | the collection is dropped |
| MongoCollection.Collection.InsertOne | internal/common/mongoclient/collection.go:165-181 | the insertion, returning the hex of the document's own ObjectID `_id` or else the generated one; FindById on the returned id then finds the document as given, without `_id` |
| MongoCollection.Collection.UpdateByID | internal/common/mongoclient/collection.go:183-197 | malformed hex is `ObjectIdError`'s error with no change; otherwise the `$set` update, or its error with no change |
| MongoCollection.Collection.DeleteByID | internal/common/mongoclient/collection.go:199-207 | malformed hex is `ObjectIdError`'s error with no change; otherwise at most that document is deleted |
| MongoCollection.Collection.Index | internal/common/mongoclient/index.go:35-47 | a fresh handle with that name and no field, direction or unique |
| MongoCollection.Collection.IndexFromField | internal/common/mongoclient/index.go:49-61 | a fresh handle without a name, with that field, direction and unique |
| MongoDatabase.PlaceholderOnly | internal/common/mongoclient/database.go:71-76 | a database created by EnsureExistance holds the placeholder collection alone, so it exists and is empty |
| MongoDatabase.Database.Exists | internal/common/mongoclient/database.go:79-87 | true exactly when the server lists the database |
| MongoDatabase.Database.IsEmpty | internal/common/mongoclient/database.go:93-106 | true exactly when every collection of the database is the placeholder |
| MongoDatabase.Database.EnsureExistance | internal/common/mongoclient/database.go:61-77 | an existing database is untouched; a missing one is created with the placeholder collection only; afterwards it exists |
| MongoDatabase.Database.Drop | internal/common/mongoclient/database.go:89-91 | the database is dropped |
| MongoDatabase.Database.Collection | internal/common/mongoclient/collection.go:25-35 | a fresh handle on that collection of this database |
| DatabaseService.CheckExistance | internal/service/database/database_operations.go:15-27 | the handle exactly when the database exists, with the diagnostics unchanged; otherwise "Database Not Found" is appended; the store is not touched |
| DatabaseService.CreateResourceIdPath | internal/service/database/database_operations.go:29-35 | a plain, non-empty name yields `databases/<name>` |
| DatabaseService.DataSourceResult | internal/service/database/database_operations.go:37-55 | the Id is set only when the database exists, to `databases/<name>` for a plain name; on an error the model is unchanged |
| DatabaseService.DataSourceRead | internal/service/database/database_operations.go:37-55 | the read computes DataSourceResult |
| DatabaseService.ResourceResult | internal/service/database/database_operations.go:57-72 | the name and force_destroy are kept and the Id is the data-source read's |
| DatabaseService.ResourceRead | internal/service/database/database_operations.go:57-72 | the read computes ResourceResult |
| DatabaseService.DatabaseResource.Create | internal/service/database/resource_database.go:96-127 | connect, ensure the database, read back, write the state; the new store and response are CreateResult's |
| DatabaseService.DatabaseResource.Read | internal/service/database/resource_database.go:129-153 | the response is ReadResult's and the store is untouched |
| DatabaseService.UpdateResult | internal/service/database/resource_database.go:155-167 | the plan is written to the state with no store operation |
| DatabaseService.DatabaseResource.Update | internal/service/database/resource_database.go:155-167 | the response is UpdateResult's, and with no `modifies` clause neither the client nor the server is touched |
| DatabaseService.DatabaseResource.Delete | internal/service/database/resource_database.go:169-203 | the new store and response are DeleteResult's |
| DatabaseService.CreateRecordsId | internal/service/database/resource_database.go:112-126 | after Create the database exists, an existing one is unchanged, and the Id `databases/<name>` is recorded |
| DatabaseService.CreateTwice | internal/service/database/resource_database.go:112-126 | a second Create changes nothing and answers the same |
| DatabaseService.DeleteGuard | internal/service/database/resource_database.go:185-202 | Delete succeeds exactly when the database is empty or force_destroy is set, and then the database is gone; otherwise "Database Contains Data" and no change |
| DatabaseService.CreateThenDelete | internal/service/database/resource_database.go:185-202 | a database that Create had to make is dropped by Delete without force_destroy |
| DatabaseService.ImportRoundTrip | internal/service/database/resource_database.go:205-217 | importing `databases/<name>` sets that name; an accepted identifier names a database |
| CollectionService.CheckExistance | internal/service/collection/collection_operations.go:16-28 | the named handle exactly when the *database* exists; otherwise "Collection Not Found" is appended |
| CollectionService.CreateResourceIdPath | internal/service/collection/collection_operations.go:30-36 | plain, non-empty names yield `databases/<db>/collections/<name>` |
| CollectionService.DataSourceResult | internal/service/collection/collection_operations.go:38-62 | a missing database gives "Database Not Found" and stops there; with plain names in an existing database the Id is the collection path; an error leaves the model unchanged |
| CollectionService.ReadIgnoresCollection | internal/service/collection/collection_operations.go:16-28 | the read never reports "Collection Not Found" and succeeds on a missing collection of an existing database |
| CollectionService.DataSourceRead | internal/service/collection/collection_operations.go:38-62 | the read computes DataSourceResult |
| CollectionService.ResourceResult | internal/service/collection/collection_operations.go:64-81 | only the Id can change, and the outcome is the data-source read's |
| CollectionService.ResourceRead | internal/service/collection/collection_operations.go:64-81 | the read computes ResourceResult |
| CollectionService.CollectionResource.Create | internal/service/collection/resource_collection.go:105-142 | the new store and response are CreateResult's |
| CollectionService.CollectionResource.Read | internal/service/collection/resource_collection.go:144-168 | the response is ReadResult's and the store is untouched |
| CollectionService.UpdateResult | internal/service/collection/resource_collection.go:170-182 | the plan is written to the state with no store operation |
| CollectionService.CollectionResource.Update | internal/service/collection/resource_collection.go:170-182 | the response is UpdateResult's, and with no `modifies` clause neither the client nor the server is touched |
| CollectionService.CollectionResource.Delete | internal/service/collection/resource_collection.go:184-239 | the new store and response are DeleteResult's |
| CollectionService.CreateNeedsDatabase | internal/service/collection/resource_collection.go:121-125 | Create in a missing database fails with "Database Not Found" and creates nothing |
| CollectionService.CreateRecordsId | internal/service/collection/resource_collection.go:127-137 | after Create the collection exists, an existing one is unchanged, and the collection path is recorded |
| CollectionService.CreateTwice | internal/service/collection/resource_collection.go:127-137 | a second Create changes nothing and answers the same |
| CollectionService.DeleteMissing | internal/service/collection/resource_collection.go:198-221 | Delete of a collection or database that is not there succeeds and changes nothing |
| CollectionService.DeleteGuard | internal/service/collection/resource_collection.go:223-238 | an existing collection is dropped exactly when it holds no document or force_destroy is set; otherwise "Collection Not Empty" and no change |
| CollectionService.DeleteTwice | internal/service/collection/resource_collection.go:198-238 | after a successful Delete, a second one succeeds and changes nothing |
| CollectionService.ImportRoundTrip | internal/service/collection/resource_collection.go:241-258 | importing the collection path sets both names; an accepted identifier holds both keywords |
| IndexService.ValidateDirection | internal/service/index/validators.go:31-42 | null, 1 and -1 pass; every other value, an unknown one included, adds exactly one "Invalid Input Value" error "direction must be 1 or -1" |
| IndexService.CheckExistance | internal/service/index/index_operations.go:17-28 | the handle exactly when its lookup finds a specification; otherwise "Index not found" with the handle's field and direction |
| IndexService.CreateResourceIdNeverOk | internal/service/index/index_operations.go:30-36 | no index Id is ever produced; with plain names the helper panics at position 3 |
| IndexService.DataSourceResult | internal/service/index/index_operations.go:65-108 | a disconnected client gives "Client is not connected"; then the database, the by-name lookup of the rendered name, and the Id; the read never succeeds and never changes the model |
| IndexService.DataSourceRead | internal/service/index/index_operations.go:65-108 | the read computes DataSourceResult |
| IndexService.ResourceResult | internal/service/index/index_operations.go:38-63 | the outcome is the data-source read's on the seven shared fields, and the model is unchanged |
| IndexService.ResourceRead | internal/service/index/index_operations.go:38-63 | the read computes ResourceResult |
| IndexService.EnsuredPlan | internal/service/index/resource_index.go:175-182 | the index is ensured by a handle built from field, direction and unique; index_name becomes the new index's name, or "" when a match was already there; afterwards the by-field lookup finds an index |
| IndexService.IndexResource.Create | internal/service/index/resource_index.go:146-192 | the new store and response are CreateResult's |
| IndexService.IndexResource.Read | internal/service/index/resource_index.go:194-217 | the response is ReadResult's and the store is untouched |
| IndexService.UpdateResult | internal/service/index/resource_index.go:219-230 | the plan is written to the state with no store operation |
| IndexService.IndexResource.Update | internal/service/index/resource_index.go:219-230 | the response is UpdateResult's, and with no `modifies` clause neither the client nor the server is touched |
| IndexService.IndexResource.Delete | internal/service/index/resource_index.go:232-285 | the new store and response are DeleteResult's |
| IndexService.CreateNeedsDatabase | internal/service/index/resource_index.go:162-172 | Create in a missing database fails with "Database Not Found" and changes nothing |
| IndexService.CreateOrphansIndex | internal/service/index/resource_index.go:175-192 | Create never records a state, yet the ensured index is on the server afterwards; an existing match is left as it was |
| IndexService.CreateTwice | internal/service/index/resource_index.go:175-179 | a second Create adds no index |
| IndexService.CreateFound | internal/service/index/resource_index.go:175-179 | Create where a matching index is found changes nothing |
| IndexService.CreateStore | internal/service/index/resource_index.go:162-182 | the store Create leaves is the ensured index's once the database is found, and otherwise the old one |
| IndexService.ReadNeverSucceeds | internal/service/index/resource_index.go:194-217 | Read never records a state |
| IndexService.DeleteMissingParent | internal/service/index/resource_index.go:248-271 | Delete with the database or collection gone succeeds and changes nothing |
| IndexService.DeleteGuard | internal/service/index/resource_index.go:273-284 | without force_destroy Delete always fails with "Deletion Forbidden" and drops nothing; with it, the index named by the rendered index_name is removed, or the error changes nothing |
| IndexService.ImportNeverSucceeds | internal/service/index/resource_index.go:287-309 | ImportState never sets a state |
| DocumentService.HexIsPlain | internal/service/document/document_operations.go:18-26 | ObjectID hex contains no '/' and no keyword, and so passes through the codec |
| DocumentService.CreateResourceIdPath | internal/service/document/document_operations.go:18-26 | plain names and an ObjectID yield `databases/<db>/collections/<c>/documents/<id>` |
| DocumentService.DataSourceResult | internal/service/document/document_operations.go:51-89 | database check first; malformed hex gives "Client Error" with `ObjectIdError`'s detail; the document is the encoding of the stored one without `_id`, or its encoding error; the Id is the document path; only document and Id change |
| DocumentService.Finish1 | internal/service/document/document_operations.go:80-86 | the Id is set when it was produced; otherwise the model keeps its document and the read fails |
| DocumentService.ReadMissingDocument | internal/service/document/document_operations.go:66-78 | a missing document is no error: the read records `null` |
| DocumentService.ReadStoredDocument | internal/service/document/document_operations.go:66-78 | a stored document is read back without `_id` |
| DocumentService.DataSourceRead | internal/service/document/document_operations.go:51-89 | the read computes DataSourceResult |
| DocumentService.ResourceResult | internal/service/document/document_operations.go:28-49 | the five fields are copied from the data-source read, and only document and Id change |
| DocumentService.ResourceRead | internal/service/document/document_operations.go:28-49 | the read computes ResourceResult |
| DocumentService.DocumentResource.Create | internal/service/document/resource_document.go:113-163 | the new store and response are CreateResult's |
| DocumentService.DocumentResource.Read | internal/service/document/resource_document.go:165-189 | the response is ReadResult's and the store is untouched |
| DocumentService.DocumentResource.Update | internal/service/document/resource_document.go:191-238 | the new store and response are UpdateResult's |
| DocumentService.DocumentResource.Delete | internal/service/document/resource_document.go:240-286 | the new store and response are DeleteResult's |
| DocumentService.WritesNeedDatabase | internal/service/document/resource_document.go:129-139 | Create and Update in a missing database fail before parsing or writing |
| DocumentService.WritesNeedJson | internal/service/document/resource_document.go:142-146 | text that does not parse gives "Invalid JSON Input" and Create and Update write nothing |
| DocumentService.CreateRecordsId | internal/service/document/resource_document.go:147-156 | Create inserts exactly the parsed document under its own ObjectID `_id` or else the generated one, sets document_id to that hex, reads it back without `_id` and records the document path |
| DocumentService.UpdateApplies | internal/service/document/resource_document.go:225-231 | a changing Update has set every parsed field on the stored document and kept its other fields and the other documents; a parse or hex failure writes nothing |
| DocumentService.DeleteMissingParent | internal/service/document/resource_document.go:257-275 | Delete with the database or collection gone succeeds and changes nothing |
| DocumentService.DeleteTwice | internal/service/document/resource_document.go:257-285 | after a successful Delete no document has that id, and a second Delete changes nothing and answers the same |
| DocumentService.ImportRoundTrip | internal/service/document/resource_document.go:288-310 | importing the document path sets the three names |
| Sequences.FilterConcat | internal/service/collections/collections_operation.go:38-55 | filtering keeps the listing's order: filtering a + b is filtering a, then b |
| Sequences.FilterMember | internal/service/collections/collections_operation.go:41-44 | an element is kept exactly when it is in the listing and accepted |
| Sequences.FilterIdempotent | internal/service/collections/collections_operation.go:41-44 | filtering twice by the same test is filtering once |
| Sequences.KeepMatching | internal/service/collections/collections_operation.go:41-45 | the appending loop computes the filter |
| CollectionsListing.ReadResult | internal/service/collections/collections_operation.go:18-84 | a listing error gives "Mongo Client Error" and a compile error "Unexpected Error", both with the model unchanged; otherwise the elements of the listed names, and only the collections attribute changes |
| CollectionsListing.ListedMember | internal/service/collections/collections_operation.go:38-55 | a name is listed exactly when the server lists it, it is not the placeholder, and a filter, when there is one, matches it |
| CollectionsListing.ListedConcat | internal/service/collections/collections_operation.go:38-55 | the output keeps the listing's order |
| CollectionsListing.NoFilterKeepsAll | internal/service/collections/collections_operation.go:38-48 | with a null or empty filter every listed name but the placeholder is kept |
| CollectionsListing.ElementsWellFormed | internal/service/collections/collections_operation.go:58-73 | each element has the database, a listed name other than the placeholder, and the Id `databases/<db>/collections/<name>` |
| CollectionsListing.DataSourceRead | internal/service/collections/collections_operation.go:18-84 | the three loops compute ReadResult |
| DatabasesListing.ReadResult | internal/service/databases/databases_operation.go:18-75 | a listing error or a compile error leaves the model unchanged with its diagnostic; otherwise the elements of the listed names |
| DatabasesListing.ListedMember | internal/service/databases/databases_operation.go:37-47 | a database is listed exactly when the server lists it and a filter, when there is one, matches it |
| DatabasesListing.ListedConcat | internal/service/databases/databases_operation.go:37-64 | the output keeps the listing's order |
| DatabasesListing.ElementsWellFormed | internal/service/databases/databases_operation.go:52-58 | each element is a listed database with the Id `databases/<name>` |
| DatabasesListing.DataSourceRead | internal/service/databases/databases_operation.go:18-75 | the two loops compute ReadResult |
| Replace.ApplyConcat | internal/common/string/replace/replace.go:32-48 | applying a chain extended by more replacements applies the chain, then the extension |
| Replace.ApplySnoc | internal/common/string/replace/replace.go:32-48 | one more replacement at the end is applied last, replacing all its occurrences |
| Replace.BlankChain | internal/common/string/indent/indent.go:66-71 | deleting spaces then tabs leaves nothing exactly when the text holds only spaces and tabs |
| Replace.Chain.constructor | internal/common/string/replace/replace.go:26-30 | the chain holds the given replacements |
| Replace.Chain.Apply | internal/common/string/replace/replace.go:32-37 | the replacements are applied in chain order and the chain is not changed; an empty chain returns its input |
| Replace.Chain.Copy | internal/common/string/replace/replace.go:39-43 | a fresh chain with the same replacements |
| Replace.Chain.Extend | internal/common/string/replace/replace.go:45-48 | the replacements are appended in order and the same chain is returned |
| Replace.ExtendCopy | internal/common/string/replace/replace.go:39-48 | extending a copy leaves the original unchanged |
| Indent.IndentSize | internal/common/string/indent/indent.go:57-64 | the index of the first character that is not a space, or the length when there is none |
| Indent.GetIndentSize | internal/common/string/indent/indent.go:57-64 | the loop computes IndentSize |
| Indent.IsEmpty | internal/common/string/indent/indent.go:66-71 | true exactly when the line holds only spaces and tabs |
| Indent.MinIndent | internal/common/string/indent/indent.go:27-39 | -1 exactly when every line is blank; otherwise the least indent of the non-blank lines, reached by one of them |
| Indent.LeastIndent | internal/common/string/indent/indent.go:27-39 | the first loop computes MinIndent |
| Indent.Cut | internal/common/string/indent/indent.go:42-52 | the second loop computes the joined cut lines |
| Indent.Sanitize | internal/common/string/indent/indent.go:19-55 | the method computes Sanitized |
| Indent.SanitizedHasNoTab | internal/common/string/indent/indent.go:21 | the output holds no tab |
| Indent.SanitizedNewlines | internal/common/string/indent/indent.go:24-52 | the output has one newline more than the input: one per line |
| Indent.SanitizedEndsWithNewline | internal/common/string/indent/indent.go:42-52 | the output ends with a newline, even for "" |
| Indent.SanitizedLines | internal/common/string/indent/indent.go:42-52 | line by line: a blank line becomes empty, every other line loses exactly the least indent, which is all spaces |
| Indent.SanitizedLeastIndent | internal/common/string/indent/indent.go:27-51 | when some line is not blank, some output line is non-empty and does not start with a space |
| Indent.SanitizedIdempotent | internal/common/string/indent/indent.go:19-55 | sanitising a sanitised text adds one newline at the end and changes nothing else |

## Left out

- Transport and driver errors are not modelled. The exceptions are the
  outcome of `Connect`, which is an input, and the two listing calls, whose
  result is an input. `ListCollectionNames`, `CountDocuments`, `FindOne`
  and the other driver calls always succeed on the in-memory server.
- `Client.Run`, `New`, `FromURI`, `WithContext`, `WithLogger`, `Context`
  and the `ResourceId` accessors are not modelled. They are connection
  plumbing and field selectors. The accessors are the field selectors of
  `ResourceId`, and `IsConnected` is `Client.connected`.
- The generated values are inputs: the ObjectID `InsertOne` assigns and
  the name `CreateOne` derives for a new index.
- `types.String.String()`, used to name an index, is an opaque function
  `render` of the stored name.
- The regular-expression compile and match of the listings are an opaque
  function `compile`.
- BSON and JSON encoding and parsing (`json.Unmarshal`, `json.Marshal`,
  `ToBson`) are opaque functions `parse` and `encode`. The `interface{}`
  document of the resource is taken to be a document, and the errors of
  `ToBson` are not modelled.
- MongoStore.InsertDocument: a document whose `_id` is not an ObjectID
  (a number or a plain string, say) gets the error "failed to convert
  InsertedID to ObjectID" and leaves the server unchanged. The driver
  inserts such a document before the conversion fails, so it stays on the
  server. The model's collections hold only documents keyed by an
  ObjectID, which are the only ones the provider can address. A document
  with an Extended JSON `{"$oid": ...}` `_id` is modelled as the source
  does it: it is stored under that ObjectID and Create succeeds.
- MongoStore.ObjectIdError: the id is measured and scanned by character.
  Go measures it in bytes and reports the first byte of a non-ASCII
  character. The two agree on every ASCII id. For a non-ASCII character
  the model also does not follow Go's test of whether the character is
  printable, and writes it without quotes.
- MongoIndex.ByField: the index direction is compared as an unbounded
  integer. The source compares `int32` values, so directions that differ
  by a multiple of 2^32 would also match. The validator admits only 1 and
  -1.
- MongoIndex.ByName, MongoIndex.ByField: a key value of an index
  specification is modelled as an integer. The source reads it with
  `Int32()`, which panics on any other BSON type: a text, `2dsphere` or
  `hashed` index (a string value), or a key stored as a double or an
  int64. That panic, and with it the panics of `Index.GetSpec`,
  `Index.Exists`, `Index.EnsureExistance` and the index controllers on a
  collection holding such an index, is not modelled.
- MongoStore.SetFields: an empty `$set`, which the server refuses, is
  accepted as a no-op.
- The `documents` data source and `Collection.Find` are not modelled.
  Their only own logic is a server-side query, and the cascade in front of
  them is the one the document read has.
- The Terraform framework plumbing is not modelled: schemas, `Plan.Get`,
  `State.Set`, and null or unknown strings, which are read as
  `ValueString`.
- The `sync_with_database` attribute is not modelled, because only the
  tests use it and `resource_document.go` never reads it.
- The errors of `NewObjectValue` and `NewListValue` in the listings are
  not modelled. They are framework type errors that cannot happen with
  the provider's own element type.
- The listing order is whatever the server returns. It is an input.
- Indent.Sanitize: the tab size is a `nat`. A negative size would make
  `strings.Repeat` panic, and the only caller passes 2.
- `replace` patterns: `Replace` follows `strings.Replace` for an empty
  pattern too (an insertion before every character). No caller uses one.
- Go's byte indexing of strings: the model indexes by character. The two
  agree where the core indexes, after ASCII spaces and ASCII keywords, and
  on an ASCII document id.
