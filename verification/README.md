# MCPP.Net core, modelled in Dafny

MCPP.Net turns the operations of an OpenAPI (Swagger) description into
MCP tools. A client can list these tools and call them over the Model
Context Protocol.

This project models that core as it is written in C#:

- **Persisted tables.** The `Import` and `McpTool` tables, with the
  database constraints the entity classes declare: unique indexes, the
  required name, and the import foreign key with cascade delete.
  `SaveChanges` commits a staged state only if those constraints hold.
- **`McpToolService`.** Batch replacement of one import's tools, the
  single-tool upsert keyed by id or by `(HttpMethod, RequestPath)`,
  delete, and the enabled flag.
- **`ImportService`.** Import by name with the same-source upsert rule,
  update with re-synchronisation of the tools, cascade delete, and the
  spec-to-tool split.
- **The input-schema builder.** Parameter grouping by `in`, request-body
  sources, `$ref` resolution against `components/schemas`, and the fixed
  `parameters` wrapper.
- **The conversions in `ModelExtensions`.** Request to entity, entity to
  DTO, and updates in place.
- **`McpToolsKeeper`.** The merged tool listing, and call dispatch: a
  static tool first, then a persisted tool named `<Import.Name>_<McpTool.Name>`.
- **`HttpRequestBuilder`.** It builds the forwarded HTTP request: path
  placeholders, the escaped query string, URL joining, headers, and a
  JSON or form body.
- **The two sample services.** The library `BookService` and the
  `OrderService`, which also keeps an order-status history.

## How the model is organised

**Service state.** Each service's state is a value:

- `Store.Tables` for the database;
- `Books.Library` for the book service;
- `Orders.Ledger` for the order service.

**Operations.** Each operation is a pure transition function on that
value. It returns the new state together with what the call reports
(`Step` or `Change`). Failures are `Result.Failure` values, one for each
exception the C# code throws.

**Classes.** The classes that the source mutates are Dafny classes with
`modifies` clauses: `McppDb`, `McpToolService`, `ImportService`,
`McpToolsKeeper`, `HttpRequestMessage`, `BookService` and `OrderService`.
Each of their methods is proved to perform exactly its transition
function. The properties are then lemmas about those functions:

- the constraint invariant is preserved;
- error cases leave the state unchanged;
- each operation touches only the intended rows.

**External collaborators become parameters:**

- JSON parsing and serialisation (`Codec`);
- the downloaded spec text (`fetched`);
- the HTTP transport (`send`);
- the clock (`now`);
- GUID generation.

| module | file | models |
|---|---|---|
| `Base` | base.dfy | Result/Option, ordered key lists (dictionaries), LINQ `Where`/`SelectMany`/`Skip`/`Take`, 32-bit wrap-around, string helpers |
| `JsonModel` | json.dfy | `JsonNode` values and the indexer semantics of `System.Text.Json.Nodes` |
| `Entities` | entities.dfy | `Import`, `McpTool`, request and DTO records, `ModelExtensions`, the database constraints |
| `Store` | store.dfy | `McppDbContext` tables and `SaveChanges` |
| `ToolStore` | toolservice.dfy | `McpToolService` |
| `SchemaBuilder` | schema.dfy | `SplitSwaggerToTools`, `BuildInputSchema` and its helpers |
| `ImportStore` | importservice.dfy | `ImportService` |
| `Forwarder` | forwarder.dfy | `HttpRequestBuilder` and `ForwardCallAsync` |
| `Keeper` | keeper.dfy | `McpToolsKeeper` list and call handlers |
| `Books` | books.dfy | sample `BookService` |
| `Orders` | orders.dfy | sample `OrderService` |

## Model

| member | source | states |
|---|---|---|
| JsonModel.Index | src/MCPP.Net/Services/Impl/ImportService.cs:174-183 | `node[key]` fails exactly when the node is not an object; otherwise it yields the member, and a JSON null reads as absent |
| JsonModel.SetMember | src/MCPP.Net/Services/Impl/ImportService.cs:235 | after `obj[key] = value`, the key maps to the value; an existing key keeps its place, and a new key is appended |
| Entities.ToImport | src/MCPP.Net/Services/ModelExtensions.cs:9-20 | a new import row copies Name, ImportFrom, SourceBaseUrl, Description and Json from the request, is enabled, and its CreatedAt and UpdatedAt are both the creation time |
| Entities.ToImportIgnoresEnabled | src/MCPP.Net/Services/ModelExtensions.cs:9-20 | the request's Enabled flag has no influence on the created row |
| Entities.UpdateImport | src/MCPP.Net/Services/ModelExtensions.cs:38-47 | the update copies Name, ImportFrom, SourceBaseUrl, Description, Json and Enabled from the request, keeps the id and CreatedAt and sets UpdatedAt to now |
| Entities.UpdateImportShowsRequest | src/MCPP.Net/Services/ModelExtensions.cs:22-47 | the DTO of an updated import shows every field of the request, with the old id and CreatedAt and the new UpdatedAt |
| Entities.ImportToDto | src/MCPP.Net/Services/ModelExtensions.cs:22-36 | each of the nine DTO fields equals the row's field of the same name |
| Entities.ImportToDtoInjective | src/MCPP.Net/Services/ModelExtensions.cs:22-36 | the import DTO loses nothing: two rows with equal DTOs are equal |
| Entities.ToTool | src/MCPP.Net/Services/ModelExtensions.cs:49-61 | a new tool row copies ImportId, Name, HttpMethod, RequestPath, Description and InputSchema from the request and is enabled; CreatedAt is generated by the database on insert, modelled as `now`, and UpdatedAt keeps its default |
| Entities.UpdateTool | src/MCPP.Net/Services/ModelExtensions.cs:80-90 | the update copies Name, HttpMethod, RequestPath, Description, InputSchema and ImportId from the request, keeps the id and CreatedAt, and sets Enabled to the given flag and UpdatedAt to now |
| Entities.UpdateToolMatchesToTool | src/MCPP.Net/Services/ModelExtensions.cs:49-90 | an update that enables the tool produces the row `ToTool` would have produced with the old id and CreatedAt, apart from UpdatedAt |
| Entities.ToolToDto | src/MCPP.Net/Services/ModelExtensions.cs:63-78 | each of the ten DTO fields equals the tool's field of the same name |
| Entities.ToolToDtoInjective | src/MCPP.Net/Services/ModelExtensions.cs:63-78 | the tool DTO loses nothing: two tools with equal DTOs are equal |
| Store.Save | src/MCPP.Net/Database/McppDbContext.cs:41-55 | a commit that succeeds leaves the tables satisfying the unique indexes, the NOT NULL name and the import foreign key |
| Store.SaveCommitsWhenConsistent | src/MCPP.Net/Database/McppDbContext.cs:41-55 | a staged state that satisfies the constraints is committed as it is |
| Store.SaveKeepsConsistent | src/MCPP.Net/Database/McppDbContext.cs:41-55 | from a consistent state, `SaveChanges` always leaves a consistent state, whether it commits or refuses |
| Store.McppDb.constructor | src/MCPP.Net/Database/McppDbContext.cs:41-55 | the database starts with empty tables and both identities at 1 |
| Store.McppDb.SaveChanges | src/MCPP.Net/Database/McppDbContext.cs:41-55 | the database performs exactly `Save`: it commits the staged tables or keeps the last committed ones |
| Store.IdentifiesRows | src/MCPP.Net/Database/Entities/McpTool.cs:11-12 | tool ids identify rows in a consistent state |
| ToolStore.Inserted | src/MCPP.Net/Services/Impl/McpToolService.cs:19-22 | batch insertion makes one row per request, in request order, with consecutive identities |
| ToolStore.DeleteByImportStep | src/MCPP.Net/Services/Impl/McpToolService.cs:84-90 | deleting by import never changes the import table |
| ToolStore.BatchStep | src/MCPP.Net/Services/Impl/McpToolService.cs:13-24 | a batch never changes the import table |
| ToolStore.BatchRejectsBeforeChanging | src/MCPP.Net/Services/Impl/McpToolService.cs:13-18 | an empty batch, or a batch spanning more than one ImportId, fails without changing anything and names the import ids |
| ToolStore.ClearedTools | src/MCPP.Net/Services/Impl/McpToolService.cs:84-90 | deleting by import removes exactly the rows of that import, and always commits |
| ToolStore.BatchCommits | src/MCPP.Net/Services/Impl/McpToolService.cs:13-24 | a successful batch had one import id, and leaves the other imports' rows followed by the new rows |
| ToolStore.BatchReplacesTools | src/MCPP.Net/Services/Impl/McpToolService.cs:13-24 | after a successful batch, the import's tools are exactly the inserted ones, all enabled, and the other imports' tools are unchanged |
| ToolStore.BatchKeepsConsistent | src/MCPP.Net/Services/Impl/McpToolService.cs:13-24 | a batch, successful or not, keeps every table constraint |
| ToolStore.UnnamedBatchOnlyDeletes | src/MCPP.Net/Services/Impl/McpToolService.cs:13-24 | a batch of unnamed tools commits the deletion, but the NOT NULL name column refuses the insertion |
| ToolStore.FindTarget | src/MCPP.Net/Services/Impl/McpToolService.cs:99-128 | a found target is a row index |
| ToolStore.UpsertUnknownIdFails | src/MCPP.Net/Services/Impl/McpToolService.cs:102-106 | an update naming an unknown id fails with ToolNotFound and changes nothing |
| ToolStore.UpsertByIdRejectsTakenSignature | src/MCPP.Net/Services/Impl/McpToolService.cs:108-119 | an update by id whose method and path belong to a row fails with SignatureTaken, naming that row |
| ToolStore.UpsertCreateInserts | src/MCPP.Net/Services/Impl/McpToolService.cs:26-51 | a creation matching no signature and no name inserts a new row; it succeeds iff the name is present and the import exists |
| ToolStore.UpsertCreateUpdatesSignatureRow | src/MCPP.Net/Services/Impl/McpToolService.cs:26-51 | a creation matching an existing signature, with no other row of that name, updates that row in place and re-enables it |
| ToolStore.FindTargetNameGuard | src/MCPP.Net/Services/Impl/McpToolService.cs:121-125 | when the lookup succeeds, a row sharing the requested name can only be the target itself |
| ToolStore.UpsertKeepsConsistent | src/MCPP.Net/Services/Impl/McpToolService.cs:26-51 | the upsert keeps every table constraint |
| ToolStore.UnknownIdFails | src/MCPP.Net/Services/Impl/McpToolService.cs:64-97 | Get, Delete and SetEnabled on an unknown id fail with ToolNotFound and change nothing |
| ToolStore.SetEnabledChangesOnlyFlag | src/MCPP.Net/Services/Impl/McpToolService.cs:92-97 | SetEnabled on an existing row changes only that row's flag and keeps the constraints |
| ToolStore.DeleteRemovesRow | src/MCPP.Net/Services/Impl/McpToolService.cs:73-79 | Delete removes exactly that row and keeps the constraints |
| ToolStore.GetFindsRow | src/MCPP.Net/Services/Impl/McpToolService.cs:64-69 | Get on an existing id returns that row's DTO |
| ToolStore.DeleteByImportKeepsOthers | src/MCPP.Net/Services/Impl/McpToolService.cs:84-90 | after deleting by import, no row of the import remains, the others are unchanged, and the state is consistent |
| ToolStore.ListToolsExact | src/MCPP.Net/Services/Impl/McpToolService.cs:56-59 | the listing holds the DTO of a row iff that row belongs to the import |
| ToolStore.McpToolService.ImportTools | src/MCPP.Net/Services/Impl/McpToolService.cs:13-24 | the batch import performs exactly `BatchStep` on the database |
| ToolStore.McpToolService.ImportTool | src/MCPP.Net/Services/Impl/McpToolService.cs:26-51 | the single import (and `UpdateAsync`, line 71) performs exactly `UpsertStep` |
| ToolStore.McpToolService.Find | src/MCPP.Net/Services/Impl/McpToolService.cs:99-128 | the lookup by id, then by signature, then by name returns `FindTarget` |
| ToolStore.McpToolService.Delete | src/MCPP.Net/Services/Impl/McpToolService.cs:73-79 | performs exactly `DeleteStep` |
| ToolStore.McpToolService.DeleteByImport | src/MCPP.Net/Services/Impl/McpToolService.cs:84-90 | performs exactly `DeleteByImportStep` |
| ToolStore.McpToolService.SetEnabled | src/MCPP.Net/Services/Impl/McpToolService.cs:92-97 | performs exactly `SetEnabledStep` |
| SchemaBuilder.Described | src/MCPP.Net/Services/Impl/ImportService.cs:231-235 | injecting the description succeeds iff the schema is an object, and the result's description is the parameter's, or null |
| SchemaBuilder.ParseParameter | src/MCPP.Net/Services/Impl/ImportService.cs:220-234 | a null item is skipped, and every other item that parses gives a parameter |
| SchemaBuilder.ParametersOnePerEntry | src/MCPP.Net/Services/Impl/ImportService.cs:220-239 | a successful parse gives one parameter per non-null item, in order, each the parse of that item |
| SchemaBuilder.GroupOrder | src/MCPP.Net/Services/Impl/ImportService.cs:224-229 | the groups are keyed by the `in` sources in order of first appearance |
| SchemaBuilder.GroupPropertyOrder | src/MCPP.Net/Services/Impl/ImportService.cs:237 | a group's properties are the parameter names of that source, in order of first appearance |
| SchemaBuilder.GroupRequiredNames | src/MCPP.Net/Services/Impl/ImportService.cs:238 | a group's required list holds the required parameter names of that source, in order, repeats included |
| SchemaBuilder.GroupPropertySchema | src/MCPP.Net/Services/Impl/ImportService.cs:237 | a property's schema is the one of the last parameter with that source and name |
| SchemaBuilder.GroupSchemas | src/MCPP.Net/Services/Impl/ImportService.cs:241-246 | every group becomes an object schema with its properties and required array, under the same keys |
| SchemaBuilder.ParameterSchemas | src/MCPP.Net/Services/Impl/ImportService.cs:217-247 | the result's keys are the sources of the parsed parameters, deduplicated in order |
| SchemaBuilder.ExtractSchemaFromParameters | src/MCPP.Net/Services/Impl/ImportService.cs:217-247 | the loop returns `ParameterSchemas` |
| SchemaBuilder.ResolveTarget | src/MCPP.Net/Services/Impl/ImportService.cs:279-296 | a resolved reference target is an object; resolution fails only with a non-object node, a non-string value, a missing member or an over-long reference chain |
| SchemaBuilder.ToStandard | src/MCPP.Net/Services/Impl/ImportService.cs:272-297 | the standard form exists only for objects, and is an object; the conversion fails only with a non-object node, a non-string value, a missing member or an over-long reference chain |
| SchemaBuilder.NoReferenceUnchanged | src/MCPP.Net/Services/Impl/ImportService.cs:274-277 | a schema whose `type` is a string other than `array`, or absent, and that has no `$ref` is returned unchanged |
| SchemaBuilder.ArrayReferenceResolved | src/MCPP.Net/Services/Impl/ImportService.cs:274-283 | an array whose `items` carry a `$ref` becomes the referenced component schema itself (the array wrapper is dropped) |
| SchemaBuilder.ArrayWithoutReferenceUnchanged | src/MCPP.Net/Services/Impl/ImportService.cs:274-277 | an array whose `items` carry no `$ref` is returned unchanged, whatever the array node's own members |
| SchemaBuilder.LastSegmentAfterSlash | src/MCPP.Net/Services/Impl/ImportService.cs:281-283 | the component name of a reference is the text after its last `/` (`LastIndexOf('/') + 1`) |
| SchemaBuilder.ResolvePropsKeepsKeys | src/MCPP.Net/Services/Impl/ImportService.cs:285-294 | resolving the properties keeps the target's property keys and their order |
| SchemaBuilder.ResolvePropsEntry | src/MCPP.Net/Services/Impl/ImportService.cs:286-293 | each property becomes the standard form of its own schema |
| SchemaBuilder.ResolvePropsUntouched | src/MCPP.Net/Services/Impl/ImportService.cs:284-294 | a key not among the properties keeps its cloned value |
| SchemaBuilder.PropertyDescriptionWins | src/MCPP.Net/Services/Impl/ImportService.cs:290-293 | a referencing property's own description overrides the target's |
| SchemaBuilder.SwaggerSchemaToStandard | src/MCPP.Net/Services/Impl/ImportService.cs:272-297 | the recursive conversion returns `ToStandard` |
| SchemaBuilder.ResolveReference | src/MCPP.Net/Services/Impl/ImportService.cs:279-296 | the reference resolution returns `ResolveRef` |
| SchemaBuilder.ResolveTargetSchema | src/MCPP.Net/Services/Impl/ImportService.cs:284-296 | the property loop returns `ResolveTarget` |
| SchemaBuilder.BodySource | src/MCPP.Net/Services/Impl/ImportService.cs:254-259 | a content type has a source iff it is `application/json` or `application/x-www-form-urlencoded`; the first maps to `json`, the second to `form` |
| SchemaBuilder.FirstSupported | src/MCPP.Net/Services/Impl/ImportService.cs:252-266 | the chosen content entry is the first one with a supported type; none is chosen iff none is supported |
| SchemaBuilder.BodySchemas | src/MCPP.Net/Services/Impl/ImportService.cs:249-270 | on success, exactly one new source is added, after the existing ones; it is a fresh key holding an object |
| SchemaBuilder.BodyUnsupported | src/MCPP.Net/Services/Impl/ImportService.cs:252-269 | a content object with no supported type is refused with the list of its content types, and only such a content object is refused that way |
| SchemaBuilder.BodyDuplicateSource | src/MCPP.Net/Services/Impl/ImportService.cs:254-262 | when the first supported type's source is already a key, the body is refused with that source |
| SchemaBuilder.BodySchemaUsed | src/MCPP.Net/Services/Impl/ImportService.cs:254-265 | otherwise the new entry pairs the first supported type's source with the standard form of that entry's `schema`, and a conversion failure is passed on unchanged |
| SchemaBuilder.ExtractSchemaFromBody | src/MCPP.Net/Services/Impl/ImportService.cs:249-270 | the loop returns `BodySchemas` |
| SchemaBuilder.ParameterInputs | src/MCPP.Net/Services/Impl/ImportService.cs:174-177 | the parameter sources have no duplicate keys |
| SchemaBuilder.MergedInputs | src/MCPP.Net/Services/Impl/ImportService.cs:172-183 | the merged sources never repeat a key |
| SchemaBuilder.CollectParameters | src/MCPP.Net/Services/Impl/ImportService.cs:174-177 | returns `ParameterInputs` |
| SchemaBuilder.MergeSchema | src/MCPP.Net/Services/Impl/ImportService.cs:191-214 | the wrapper has the keys `type`, `properties` and `required`; `parameters` holds every source, and all sources are required |
| SchemaBuilder.BuildInputSchema | src/MCPP.Net/Services/Impl/ImportService.cs:170-215 | returns `InputSchemaText` |
| SchemaBuilder.ParametersOnlyMerge | src/MCPP.Net/Services/Impl/ImportService.cs:170-247 | with parameters and no body, the sources are the `in` values in order, and each holds its group's object schema |
| SchemaBuilder.NoInputsNoSchema | src/MCPP.Net/Services/Impl/ImportService.cs:185 | an operation with neither parameters nor body gives the empty string |
| SchemaBuilder.OperationDescription | src/MCPP.Net/Services/Impl/ImportService.cs:123 | the description is the summary when present, otherwise the description, otherwise empty; it fails exactly when a consulted member is not a string or the operation is not an object |
| SchemaBuilder.OperationTool | src/MCPP.Net/Services/Impl/ImportService.cs:118-131 | a tool request built from an operation has no name and carries the import id |
| SchemaBuilder.OperationToolFields | src/MCPP.Net/Services/Impl/ImportService.cs:118-131 | its method is the upper-cased verb, its path is the path key, and its description and input schema are those of the operation |
| SchemaBuilder.SplitOpsCovers | src/MCPP.Net/Services/Impl/ImportService.cs:116-134 | walking one path gives one tool per non-null operation, in order |
| SchemaBuilder.SplitPathsCovers | src/MCPP.Net/Services/Impl/ImportService.cs:110-135 | walking all paths gives one tool per non-null operation of each object path item, in order |
| SchemaBuilder.SplitSwaggerToTools | src/MCPP.Net/Services/Impl/ImportService.cs:103-139 | the nested loops return `SplitSpec` |
| SchemaBuilder.SplitCoversOperations | src/MCPP.Net/Services/Impl/ImportService.cs:103-139 | the k-th tool of a split is the tool built from the k-th operation |
| SchemaBuilder.SplitToolsUnnamed | src/MCPP.Net/Services/Impl/ImportService.cs:125-131 | every tool request from a spec is unnamed and belongs to the import |
| SchemaBuilder.NoPathsNoTools | src/MCPP.Net/Services/Impl/ImportService.cs:105-107 | a document without `paths` gives no tools |
| ImportStore.Download | src/MCPP.Net/Services/Impl/ImportService.cs:299-318 | a literal Json, or a missing source, is kept; otherwise the fetch decides success, and its text becomes the Json |
| ImportStore.SpecBatch | src/MCPP.Net/Services/Impl/ImportService.cs:44-47 | splitting and importing tools never touches the import table |
| ImportStore.SyncTools | src/MCPP.Net/Services/Impl/ImportService.cs:86-98 | synchronising tools never touches the import table |
| ImportStore.CascadeKeepsConsistent | src/MCPP.Net/Database/McppDbContext.cs:41-44 | deleting an import together with its tools keeps every constraint |
| ImportStore.NoToolsOfNextImport | src/MCPP.Net/Database/Entities/McpTool.cs:11-12 | no tool refers to the identity the next import will get |
| ImportStore.SpecBatchKeepsConsistent | src/MCPP.Net/Services/Impl/ImportService.cs:44-47 | the spec batch keeps every constraint |
| ImportStore.SyncKeepsConsistent | src/MCPP.Net/Services/Impl/ImportService.cs:86-98 | tool synchronisation keeps every constraint |
| ImportStore.InternalUpdateKeepsConsistent | src/MCPP.Net/Services/Impl/ImportService.cs:79-101 | the internal update keeps every constraint |
| ImportStore.NewImportKeepsConsistent | src/MCPP.Net/Services/Impl/ImportService.cs:34-47 | creating an import keeps every constraint |
| ImportStore.ImportKeepsConsistent | src/MCPP.Net/Services/Impl/ImportService.cs:23-48 | `ImportAsync` keeps every constraint |
| ImportStore.UpdateKeepsConsistent | src/MCPP.Net/Services/Impl/ImportService.cs:62-70 | `UpdateAsync` keeps every constraint |
| ImportStore.DeleteImportKeepsConsistent | src/MCPP.Net/Services/Impl/ImportService.cs:72-77 | `DeleteAsync` keeps every constraint |
| ImportStore.ImportNameRow | src/MCPP.Net/Database/Entities/Import.cs:11-12 | import names identify rows in a consistent state |
| ImportStore.ImportIdRow | src/MCPP.Net/Services/Impl/ImportService.cs:55-77 | import ids identify rows in a consistent state |
| ImportStore.ImportRefusesNameFromOtherSource | src/MCPP.Net/Services/Impl/ImportService.cs:25-29 | importing under a taken name with a different ImportFrom fails with ImportNameTaken and changes nothing |
| ImportStore.InternalUpdateKeepsRows | src/MCPP.Net/Services/Impl/ImportService.cs:79-101 | the internal update keeps the number and the ids of the import rows |
| ImportStore.ImportSameSourceUpdatesInPlace | src/MCPP.Net/Services/Impl/ImportService.cs:25-32 | importing under a taken name with the same source is the internal update of that row, which keeps the rows and their ids |
| ImportStore.UpdateUnknownFails | src/MCPP.Net/Services/Impl/ImportService.cs:62-66 | updating an unknown id fails with ImportNotFound and changes nothing |
| ImportStore.UpdateRefusesOthersName | src/MCPP.Net/Services/Impl/ImportService.cs:66-68 | an update to another import's name fails with ImportNameTaken and changes nothing |
| ImportStore.UpdateKeepsOwnName | src/MCPP.Net/Services/Impl/ImportService.cs:62-70 | an update whose name is free or its own goes through to the internal update |
| ImportStore.SameJsonKeepsTools | src/MCPP.Net/Services/Impl/ImportService.cs:84-100 | an update whose resulting Json equals the stored one only rewrites the row and never touches the tools |
| ImportStore.EmptiedJsonDropsTools | src/MCPP.Net/Services/Impl/ImportService.cs:86-91 | an update that empties the Json removes all the import's tools and keeps every other tool |
| ImportStore.SpecBatchNeverCommits | src/MCPP.Net/Services/Impl/ImportService.cs:44-47 | importing a spec's tools always fails: with any tools, the deletion is committed and the unnamed rows are refused |
| ImportStore.ChangedJsonNeverCommits | src/MCPP.Net/Services/Impl/ImportService.cs:86-100 | an update to a different non-empty Json fails in the tool batch, and leaves the import row unchanged |
| ImportStore.NewNameInserts | src/MCPP.Net/Services/Impl/ImportService.cs:25-34 | a name no import has takes the creation path |
| ImportStore.NewImportCommitsRowFirst | src/MCPP.Net/Services/Impl/ImportService.cs:34-47 | the new row is committed before the split; the call succeeds iff the Json is empty |
| ImportStore.DeleteImportCascades | src/MCPP.Net/Services/Impl/ImportService.cs:72-77 | deleting an import removes exactly its row and its tools |
| ImportStore.GetImportFindsRow | src/MCPP.Net/Services/Impl/ImportService.cs:55-60 | Get fails iff no row has the id, and otherwise returns that row's DTO |
| ImportStore.ListImports | src/MCPP.Net/Services/Impl/ImportService.cs:50-53 | one query record per import row, in table order, each showing that row's fields unchanged |
| ImportStore.ImportService.Import | src/MCPP.Net/Services/Impl/ImportService.cs:23-48 | performs exactly `ImportStep` on the database |
| ImportStore.ImportService.Update | src/MCPP.Net/Services/Impl/ImportService.cs:62-70 | performs exactly `UpdateStep` |
| ImportStore.ImportService.Delete | src/MCPP.Net/Services/Impl/ImportService.cs:72-77 | performs exactly `DeleteImportStep` |
| ImportStore.ImportService.InternalUpdate | src/MCPP.Net/Services/Impl/ImportService.cs:79-101 | performs exactly `InternalUpdateStep` |
| ImportStore.ImportService.Sync | src/MCPP.Net/Services/Impl/ImportService.cs:86-98 | performs exactly `SyncTools` |
| Forwarder.HexDigit | src/MCPP.Net/Core/McpToolsKeeper.cs:205 | a hex digit is unreserved, and decodes back to its value |
| Forwarder.Utf8 | src/MCPP.Net/Core/McpToolsKeeper.cs:205 | a character encodes to 1-4 bytes, and to one byte, itself, iff it is ASCII |
| Forwarder.PercentEncode | src/MCPP.Net/Core/McpToolsKeeper.cs:205 | every byte becomes three characters, each unreserved or `%` |
| Forwarder.EscapeDataString | src/MCPP.Net/Core/McpToolsKeeper.cs:205 | `Uri.EscapeDataString` yields only unreserved characters and `%`, and leaves a string unchanged in length iff it is all unreserved |
| Forwarder.DecodeEncodedBytes | src/MCPP.Net/Core/McpToolsKeeper.cs:205 | percent-decoding undoes percent-encoding of any bytes |
| Forwarder.EscapeRoundTrip | src/MCPP.Net/Core/McpToolsKeeper.cs:205 | percent-decoding an escaped value gives back its UTF-8 bytes |
| Forwarder.ReplaceAbsent | src/MCPP.Net/Core/McpToolsKeeper.cs:194-195 | `Replace` leaves a text without the pattern unchanged |
| Forwarder.ReplaceSole | src/MCPP.Net/Core/McpToolsKeeper.cs:194-195 | `Replace` substitutes a single occurrence and keeps its surroundings |
| Forwarder.FillPathWithoutPlaceholders | src/MCPP.Net/Core/McpToolsKeeper.cs:188-198 | a template with no `{` is unaffected by path values |
| Forwarder.FillSinglePlaceholder | src/MCPP.Net/Core/McpToolsKeeper.cs:188-198 | a `{name}` placeholder is replaced by the text of its value |
| Forwarder.Section | src/MCPP.Net/Core/McpToolsKeeper.cs:188-237 | with no parameters, every section is absent; a section can be read iff the parameters are absent or an object |
| Forwarder.ProcessPath | src/MCPP.Net/Core/McpToolsKeeper.cs:188-198 | the loop over the path members returns `PathOf` |
| Forwarder.TextPairs | src/MCPP.Net/Core/McpToolsKeeper.cs:214-237 | each member becomes its name with the text of its value, in order |
| Forwarder.QueryItems | src/MCPP.Net/Core/McpToolsKeeper.cs:200-212 | each query member becomes `name=escaped value`, in order |
| Forwarder.ProcessQuery | src/MCPP.Net/Core/McpToolsKeeper.cs:200-212 | the loop over the query members returns `QueryOf` |
| Forwarder.SplitJoin | src/MCPP.Net/Core/McpToolsKeeper.cs:183 | splitting a join of separator-free items on the separator gives them back |
| Forwarder.QueryItemSeparable | src/MCPP.Net/Core/McpToolsKeeper.cs:205 | a query item contains no `&` when its name has none |
| Forwarder.QueryStringRoundTrip | src/MCPP.Net/Core/McpToolsKeeper.cs:176-212 | the query string splits on `&` back into exactly the query items |
| Forwarder.TrimEnd | src/MCPP.Net/Core/McpToolsKeeper.cs:178 | `TrimEnd('/')` removes exactly the trailing run of slashes |
| Forwarder.TrimStart | src/MCPP.Net/Core/McpToolsKeeper.cs:178 | `TrimStart('/')` removes exactly the leading run of slashes |
| Forwarder.TrimEndSlashes | src/MCPP.Net/Core/McpToolsKeeper.cs:178 | trailing slashes added to a base are trimmed back to that base |
| Forwarder.TrimStartSlashes | src/MCPP.Net/Core/McpToolsKeeper.cs:178 | leading slashes added to a path are trimmed back to that path |
| Forwarder.BuildUrlJoinsOnce | src/MCPP.Net/Core/McpToolsKeeper.cs:176-186 | base and path are joined by exactly one slash whatever slashes they carry, with `?query` only when query items exist |
| Forwarder.HeadersOf | src/MCPP.Net/Core/McpToolsKeeper.cs:214-222 | headers are the header members with the text of their values, in order |
| Forwarder.FormWinsOverJson | src/MCPP.Net/Core/McpToolsKeeper.cs:167-171 | a form section decides the body even when a json section is present |
| Forwarder.JsonBodyWithoutForm | src/MCPP.Net/Core/McpToolsKeeper.cs:224-229 | a json section without a form gives the serialised JSON body |
| Forwarder.HttpRequestMessage.AddHeaders | src/MCPP.Net/Core/McpToolsKeeper.cs:214-222 | appends exactly the header pairs, or fails with `HeadersOf`'s error |
| Forwarder.HttpRequestMessage.SetJson | src/MCPP.Net/Core/McpToolsKeeper.cs:224-229 | sets the content as `AfterJson` says and changes nothing else |
| Forwarder.HttpRequestMessage.SetForm | src/MCPP.Net/Core/McpToolsKeeper.cs:231-237 | sets the content as `AfterForm` says, or fails with its error |
| Forwarder.Complete | src/MCPP.Net/Core/McpToolsKeeper.cs:167-171 | headers, json and form applied to the request give exactly `Completed` |
| Forwarder.Build | src/MCPP.Net/Core/McpToolsKeeper.cs:153-174 | the built message is fresh and equals `BuildRequest`, or the build fails with its error |
| Forwarder.ForwardCall | src/MCPP.Net/Core/McpToolsKeeper.cs:133-149 | returns `Forward`: the response text of the built request |
| Forwarder.ForwardIgnoresOtherArguments | src/MCPP.Net/Core/McpToolsKeeper.cs:133-149 | only the `parameters` argument influences the forwarded call |
| Keeper.Owner | src/MCPP.Net/Core/McpToolsKeeper.cs:76 | the navigation `x.Import` is the import with the tool's ImportId, if any |
| Keeper.DispatchSpec | src/MCPP.Net/Core/McpToolsKeeper.cs:64-78 | a static tool of that name wins; a persisted match is a stored tool whose exposed name is the called name; the dispatch fails with UnknownTool iff neither exists |
| Keeper.McpToolsKeeper.constructor | src/MCPP.Net/Core/McpToolsKeeper.cs:17-27 | the keeper starts with no static tool capability |
| Keeper.McpToolsKeeper.SetTools | src/MCPP.Net/Core/McpToolsKeeper.cs:27 | stores the static tool capability |
| Keeper.McpToolsKeeper.ListTools | src/MCPP.Net/Core/McpToolsKeeper.cs:42-59 | returns `ListSpec`: the static tools, then the tools of every enabled import |
| Keeper.McpToolsKeeper.CallTool | src/MCPP.Net/Core/McpToolsKeeper.cs:64-111 | returns `CallSpec` |
| Keeper.EnabledImportTools | src/MCPP.Net/Core/McpToolsKeeper.cs:53-56 | the loops over the enabled imports return the `SelectMany` of their tools |
| Keeper.ImportToolsOf | src/MCPP.Net/Core/McpToolsKeeper.cs:54 | the loop over an import's tools returns that import's tool list |
| Keeper.ImportPartHoldsRow | src/MCPP.Net/Core/McpToolsKeeper.cs:54-55 | every tool of an import is announced in that import's part |
| Keeper.EnabledImportToolsListed | src/MCPP.Net/Core/McpToolsKeeper.cs:42-59 | every tool of an enabled import is listed, named `<Import.Name>_<McpTool.Name>` |
| Keeper.FilterSameButFlags | src/MCPP.Net/Core/McpToolsKeeper.cs:54 | selecting an import's tools commutes with changing the tools' enabled flags |
| Keeper.ToolFlagsIgnored | src/MCPP.Net/Core/McpToolsKeeper.cs:53-56 | the listing does not depend on the tools' own Enabled flags, only on their imports' |
| Keeper.DisabledImportHidden | src/MCPP.Net/Core/McpToolsKeeper.cs:53 | the tools of a disabled import do not influence the listing |
| Keeper.PersistedCallForwards | src/MCPP.Net/Core/McpToolsKeeper.cs:74-110 | a call dispatched to a stored tool returns the forwarded response text as text content, or the forwarding error |
| Keeper.ListedToolIsCallable | src/MCPP.Net/Core/McpToolsKeeper.cs:64-78 | every stored tool's exposed name dispatches to a stored tool when no static tool has that name |
| Books.MaxId | samples/LibraryManagement/Services/BookService.cs:122 | the maximum of the ids is at least every id, and is one of them |
| Books.NextIdAfter | samples/LibraryManagement/Services/BookService.cs:122 | `_nextId` exceeds every id |
| Books.SeedIsConsistent | samples/LibraryManagement/Services/BookService.cs:80-122 | the seed data starts `_nextId` at 4 and has distinct, ascending ids and distinct ISBNs |
| Books.FindById | samples/LibraryManagement/Services/BookService.cs:131-134 | a found book is stored and has the id; none is found iff no book has it |
| Books.FindByIsbn | samples/LibraryManagement/Services/BookService.cs:137-140 | a found book is stored and has the ISBN; none is found iff no book has it |
| Books.Create | samples/LibraryManagement/Services/BookService.cs:193-216 | creation fails with DuplicateIsbn iff the ISBN is taken, changing nothing; otherwise it appends a book with id `_nextId` and the ISBN, and increments `_nextId` |
| Books.CreateKeepsConsistent | samples/LibraryManagement/Services/BookService.cs:193-216 | creation keeps ids ascending and ISBNs distinct, and the new book is found by its id and its ISBN |
| Books.Overwrite | samples/LibraryManagement/Services/BookService.cs:228-231 | a blank or absent value keeps the current text; a non-blank one replaces it |
| Books.ApplyUpdate | samples/LibraryManagement/Services/BookService.cs:227-256 | Title, Author, Category and Description are replaced exactly when the given value is non-blank, Price and StockQuantity exactly when a value is given; the id, the ISBN and the publish date never change |
| Books.UpdateIdempotent | samples/LibraryManagement/Services/BookService.cs:227-256 | applying the same update twice is applying it once |
| Books.BlankUpdateKeepsBook | samples/LibraryManagement/Services/BookService.cs:227-256 | a non-blank title is taken; an update with only blank or absent fields changes nothing |
| Books.Update | samples/LibraryManagement/Services/BookService.cs:219-259 | the update returns null iff no book has the id, and then changes nothing; it never changes `_nextId` or the count |
| Books.UpdateTouchesOnlyTarget | samples/LibraryManagement/Services/BookService.cs:219-259 | only the book with the id changes, and it changes to the updated book |
| Books.Restock | samples/LibraryManagement/Services/BookService.cs:262-279 | the result is null iff the id is unknown; a stock that would go negative fails with InsufficientStock and changes nothing; the stock returned is never negative |
| Books.RestockAddsChange | samples/LibraryManagement/Services/BookService.cs:262-279 | without overflow, a non-negative stock plus the change is stored, and a negative one is refused |
| Books.RestockOverflowRefused | samples/LibraryManagement/Services/BookService.cs:271-275 | a change that overflows the 32-bit stock wraps negative and is refused |
| Books.Delete | samples/LibraryManagement/Services/BookService.cs:282-291 | Delete succeeds iff a book has the id, and then removes one book; otherwise it changes nothing |
| Books.DeleteDropsId | samples/LibraryManagement/Services/BookService.cs:282-291 | Delete leaves exactly the books with other ids |
| Books.DeleteAllDropsListed | samples/LibraryManagement/Services/BookService.cs:294-305 | deleting a list leaves exactly the unlisted books, and the count is the number of books removed, at most the number of ids |
| Books.RepeatedIdCountsNothing | samples/LibraryManagement/Services/BookService.cs:294-305 | an id listed again removes nothing and counts nothing |
| Books.Fold | samples/LibraryManagement/Services/BookService.cs:150 | case folding maps each character and keeps the length |
| Books.MatchingAdmits | samples/LibraryManagement/Services/BookService.cs:146-171 | a book survives the filters iff it is stored and satisfies every active condition |
| Books.Query | samples/LibraryManagement/Services/BookService.cs:143-190 | the page echoes the page number and size; the total counts all matches and bounds the items |
| Books.QueryListsAdmitted | samples/LibraryManagement/Services/BookService.cs:143-190 | every listed book is stored and matches the query |
| Books.QueryPagesCover | samples/LibraryManagement/Services/BookService.cs:177-180 | the k-th match is item k mod size on page k div size + 1 |
| Books.BookService.constructor | samples/LibraryManagement/Services/BookService.cs:80-122 | the service starts with the three seed books and `_nextId` 4 |
| Books.BookService.GetAllBooks | samples/LibraryManagement/Services/BookService.cs:125-128 | returns the stored books |
| Books.BookService.GetBookById | samples/LibraryManagement/Services/BookService.cs:131-134 | returns `FindById` |
| Books.BookService.GetBookByIsbn | samples/LibraryManagement/Services/BookService.cs:137-140 | returns `FindByIsbn` |
| Books.BookService.QueryBooks | samples/LibraryManagement/Services/BookService.cs:143-190 | returns `Query` |
| Books.BookService.CreateBook | samples/LibraryManagement/Services/BookService.cs:193-216 | performs `Create` and keeps the invariant |
| Books.BookService.UpdateBook | samples/LibraryManagement/Services/BookService.cs:219-259 | performs `Update` and keeps the invariant |
| Books.BookService.UpdateBookStock | samples/LibraryManagement/Services/BookService.cs:262-279 | performs `Restock` and keeps the invariant |
| Books.BookService.DeleteBook | samples/LibraryManagement/Services/BookService.cs:282-291 | performs `Delete` and keeps the invariant |
| Books.BookService.DeleteBooks | samples/LibraryManagement/Services/BookService.cs:294-305 | the loop performs `DeleteAll` over the ids and keeps the invariant |
| Orders.LastStatusAfterAppend | samples/OrderManagement/Services/OrderService.cs:151-167 | a new history entry becomes the order's latest status |
| Orders.NoEntriesNoStatus | samples/OrderManagement/Services/OrderService.cs:169-172 | an order without history entries has no latest status |
| Orders.SameStatusesTracked | samples/OrderManagement/Services/OrderService.cs:129-138 | changes that keep ids and statuses keep the history in step with the orders |
| Orders.SampleTracked | samples/OrderManagement/Services/OrderService.cs:38-94 | in the sample data, each order's status is the last status its history records |
| Orders.FindOrder | samples/OrderManagement/Services/OrderService.cs:106-109 | a found order is stored and has the id; none is found iff no order has it |
| Orders.OrdersPage | samples/OrderManagement/Services/OrderService.cs:96-104 | a page holds at most pageSize orders |
| Orders.OrdersPageMatches | samples/OrderManagement/Services/OrderService.cs:96-104 | every listed order is stored, and has the requested status when one is given |
| Orders.OrdersPageCover | samples/OrderManagement/Services/OrderService.cs:100-103 | the k-th matching order is item k mod size of page k div size |
| Orders.Insert | samples/OrderManagement/Services/OrderService.cs:171 | insertion adds exactly the new entry |
| Orders.SortByTime | samples/OrderManagement/Services/OrderService.cs:171 | sorting is a permutation |
| Orders.InsertSorted | samples/OrderManagement/Services/OrderService.cs:171 | insertion into a time-ordered list keeps it ordered |
| Orders.InsertStable | samples/OrderManagement/Services/OrderService.cs:171 | entries with equal times keep their relative order, and the new one goes last among them |
| Orders.SortByTimeSpec | samples/OrderManagement/Services/OrderService.cs:171 | `OrderBy(ChangedAt)` is ordered by time and stable |
| Orders.HistoryOfSpec | samples/OrderManagement/Services/OrderService.cs:169-172 | an order's history is ordered by time and is a permutation of exactly its entries, with the stored order kept within each instant |
| Orders.Create | samples/OrderManagement/Services/OrderService.cs:111-127 | the new order gets the new id and status Created, and is appended; one history entry is appended |
| Orders.CreateKeepsTracked | samples/OrderManagement/Services/OrderService.cs:111-127 | creation keeps history and statuses in step; the new order's history is the single entry from nothing to Created, by the system operator |
| Orders.Update | samples/OrderManagement/Services/OrderService.cs:129-138 | the update succeeds iff an order has the id, and otherwise changes nothing; it never touches the history |
| Orders.UpdateKeepsStatus | samples/OrderManagement/Services/OrderService.cs:129-138 | an update never changes any order's id, status or creation time, and changes no other order |
| Orders.WithRemark | samples/OrderManagement/Services/OrderService.cs:174-180 | adding a remark succeeds iff an order has the id, and otherwise changes nothing |
| Orders.AddRemarkOnlyRemark | samples/OrderManagement/Services/OrderService.cs:174-180 | only that order's remark changes, to the given remark |
| Orders.Delete | samples/OrderManagement/Services/OrderService.cs:140-149 | Delete succeeds iff an order has the id, and then removes one order; the history stays |
| Orders.DeleteKeepsTracked | samples/OrderManagement/Services/OrderService.cs:140-149 | after Delete, no order has the id, and its history is still readable |
| Orders.ChangeStatus | samples/OrderManagement/Services/OrderService.cs:151-167 | the status change succeeds iff an order has the id, and otherwise changes nothing; success appends one history entry |
| Orders.ChangeStatusKeepsTracked | samples/OrderManagement/Services/OrderService.cs:151-167 | only that order's status changes; the appended entry goes from the old status to the new one, and the old status was the last recorded one |
| Orders.OrderService.constructor | samples/OrderManagement/Services/OrderService.cs:31-94 | the service starts with the sample orders and histories |
| Orders.OrderService.GetOrders | samples/OrderManagement/Services/OrderService.cs:96-104 | returns `OrdersPage` |
| Orders.OrderService.GetOrderById | samples/OrderManagement/Services/OrderService.cs:106-109 | returns `FindOrder` |
| Orders.OrderService.GetOrderStatusHistory | samples/OrderManagement/Services/OrderService.cs:169-172 | returns `HistoryOf` |
| Orders.OrderService.CreateOrder | samples/OrderManagement/Services/OrderService.cs:111-127 | performs `Create` |
| Orders.OrderService.UpdateOrder | samples/OrderManagement/Services/OrderService.cs:129-138 | performs `Update` |
| Orders.OrderService.DeleteOrder | samples/OrderManagement/Services/OrderService.cs:140-149 | performs `Delete` |
| Orders.OrderService.ChangeOrderStatus | samples/OrderManagement/Services/OrderService.cs:151-167 | performs `ChangeStatus` |
| Orders.OrderService.AddRemark | samples/OrderManagement/Services/OrderService.cs:174-180 | performs `WithRemark` |

## Behaviour of the code worth knowing

- **Empty input schema.** An operation with no parameters and no body
  gets the empty string as its input schema (`NoInputsNoSchema`).
- **Tools generated from a spec have no name.** The code derives no name
  from the path. The required `Name` column therefore refuses every
  non-empty batch (`SpecBatchNeverCommits`, `UnnamedBatchOnlyDeletes`).
- **The import row is committed before the spec is split.** A schema
  failure does not undo it (`NewImportCommitsRowFirst`). In a batch, the
  deletion of the old tools is committed before the insertion is tried.
- **A form section wins over a json section.** When a call carries both,
  the form body replaces the JSON body (`FormWinsOverJson`).
- **Navigations are never loaded.** Neither query in `McpToolsKeeper`
  uses `Include`, and no lazy-loading proxies are configured, so
  `x.McpTools` and `tool.Import` are only filled for rows the context
  already tracks. The model reads both as joins (see "## Left out").
- **`McpToolsKeeper.Add` and `Remove` do nothing.** Both have empty
  bodies; tools reach the keeper only through the database.

## Left out

- **Network and parsing.** The HTTP download of a spec and the sending
  of forwarded requests are not modelled. The download is the `fetched`
  parameter, holding the compact re-serialised text or a failure. The
  transport is the `send` function.
- **JSON text.** JSON parsing and serialisation are the `Codec`
  parameter; `JsonDocument` and `Utf8JsonWriter` are not part of this
  model. A JSON number is kept as its literal text.
- JsonModel.ElementText: an object or array argument is forwarded as
  `Codec.serialize` of the parsed value, not as its original raw text, so
  whitespace and member formatting of the caller's argument are not
  modelled.
- Entities.ToUpdate: the conversion is called at
  src/MCPP.Net/Services/Impl/ImportService.cs:30 but its definition is not
  part of this model. It is assumed to copy every field, Enabled included,
  so a same-source re-import carrying `Enabled = false` disables the
  import.
- Base.ToUpper: upper-cases the ASCII letters only, whereas
  `operation.Key.ToUpper()` (ImportService.cs:119) follows the current
  culture's Unicode rules; HTTP verbs are ASCII.
- **Clock and GUIDs.** `DateTime.Now` is the `now` parameter.
  `Guid.NewGuid()` gives new ids as parameters.
- **One clock reading for the sample orders.** The sample data reads the
  clock once (`now`) for both orders.
- **Database internals.** SQL and change tracking are not modelled. Each
  table is an id-ordered sequence, and the navigations `x.McpTools` and
  `tool.Import` are read as joins on ImportId, that is, as if loaded.
- Keeper.EnabledImportToolsListed: assumes `x.McpTools` is loaded. As
  configured (no `Include`, no lazy-loading proxies), a fresh context
  leaves it at its empty initialiser unless the tool rows are already
  tracked, so the code lists no stored tools.
- Keeper.PersistedCallForwards: assumes `tool.Import` is loaded. As
  configured, nothing loads it unless the import row is already tracked,
  so `BuildUrl` dereferences a null `Import` and the call throws.
- Keeper.ListedToolIsCallable: holds only under the same assumption that
  both navigations are loaded; as configured, no stored tool is listed
  and none can be called.
- Keeper.McpToolsKeeper.CallTool: the lookup by `Import.Name + "_" + Name`
  is a join in the database and is faithful; the forwarding after it
  assumes `tool.Import` is loaded, which the code does not arrange.
- **Row order.** The order of a query without `OrderBy` is taken to be
  table order.
- **Concurrency.** Concurrent requests, including the race between two
  imports of the same new name, are not modelled. Each operation runs
  alone.
- **Logging, notifications and stubs.** Logging,
  `McpToolsKeeper.NotifyDataChanged`, and the empty `Add` and `Remove`
  methods are left out.
- **Calling a static tool.** The model reports which static tool is
  called (`StaticCall`) but does not run it.
- **The final `SaveChangesAsync` in `ImportAsync`
  (src/MCPP.Net/Services/Impl/ImportService.cs:47).** It has nothing
  left to save: the new row was committed at line 38, and the tool
  import before it has either committed or thrown.
- **Field validation.** MaxLength and string-length validation of the
  entity and DTO attributes is not enforced: only the unique indexes,
  the required name and the foreign key are. The Range and Required
  checks of the sample DTOs happen in model binding, before the service
  runs.
- **HTTP values not validated.** `Uri`, `HttpMethod` and header-name
  validation by the HTTP classes is not modelled: a request is a record
  of strings.
- **Form body encoding.** The byte encoding of `FormUrlEncodedContent`
  is not modelled: a form body is its list of name/value pairs.
- **Query keys.** Query-string keys are used unescaped, as in the code.
  Only the values are escaped (`QueryItemSeparable` assumes keys without
  `&`).
- Keeper.DispatchSpec: if two stored tools share an exposed name (for
  example `a_b_c` from imports `a_b`/`c` and `a`/`b_c`), the model
  dispatches to the first in table order and does not say which row the
  database would pick.
- Keeper.McpToolsKeeper.ListTools: a tool whose InputSchema does not
  parse (the empty string that `BuildInputSchema` gives an operation
  without inputs, for one) fails the whole listing. The model keeps this
  as a `Failure` and does not model the exception type. Like
  `EnabledImportToolsListed`, it reads `x.McpTools` and `tool.Import` as
  loaded, which the code does not arrange.
- SchemaBuilder.ToStandard: `$ref` chains are followed with fuel, one
  more than the number of component schemas. A cyclic reference fails
  with RefTooDeep where the code overflows its stack.
- **Prices are integer hundredths.** The model stores `decimal` prices as
  whole hundredths; a price filter with finer precision is not modelled.
  The `fold` parameter stands for the per-character case mapping of
  `StringComparison.OrdinalIgnoreCase`, which does not depend on the
  culture; the model leaves that mapping's table abstract.
- **`TotalPages`.** `PagedResult.TotalPages` uses floating point and is
  not modelled.
- **State held by value.** `BookService`'s static list is one object's
  state. Returned `Book` and `Order` references are values in the model:
  a caller holding one does not see later updates through it.
- Books.BookService.CreateBook: `_nextId` is an unbounded integer. Its
  32-bit overflow after 2^31 creations is not modelled.
- Books.BookService.DeleteBooks: the count is unbounded.
- **Paging offset.** The offset arithmetic of `Skip` in both samples
  wraps at 32 bits as in C#. `Take` with a negative size gives nothing.
- **Missing sections.** A `parameters` argument that is JSON null counts
  as present and non-object, so reading a section from it fails.
