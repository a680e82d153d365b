/** Import orchestration (Services/Impl/ImportService.cs): creating an import
    from a request, updating one, deleting one with its tools, and the
    shared update path that re-synchronises the tool table only when the
    stored document changed. The document download is an input: `fetched`
    is the compact text the download produced, or None when it failed. */
module ImportStore {
  import opened Base
  import opened JsonModel
  import opened Entities
  import opened Store
  import opened SchemaBuilder
  import opened ToolStore

  // ---------------------------------------------------------------------------
  // Row conditions of the queries.

  function NamedAs(name: string): Import -> bool {
    (x: Import) => x.name == name
  }

  function ImportHasId(id: int): Import -> bool {
    (x: Import) => x.id == id
  }

  function ImportOtherThan(id: int): Import -> bool {
    (x: Import) => x.id != id
  }

  /** Another import (not `id`) already carries `name`. */
  function NamedOtherThan(name: string, id: int): Import -> bool {
    (x: Import) => x.name == name && x.id != id
  }

  // ---------------------------------------------------------------------------
  // Step functions.

  /** `DownloadSwaggerJsonAsync`: a request that already has a document, or
      has no source to download from, keeps its Json; otherwise the Json
      becomes the downloaded text. */
  function Download(json: Option<string>, importFrom: Option<string>, fetched: Option<string>): (r: Result<Option<string>>)
    ensures !IsNullOrEmpty(json) || IsNullOrEmpty(importFrom) ==> r == Success(json)
    ensures IsNullOrEmpty(json) && !IsNullOrEmpty(importFrom) ==>
      (r.Success? <==> fetched.Some?) && (r.Success? ==> r.value == fetched)
  {
    if !IsNullOrEmpty(json) || IsNullOrEmpty(importFrom) then Success(json)
    else if fetched.None? then Failure(DownloadFailed)
    else Success(fetched)
  }

  /** The tools of one document: split it, then replace the import's tools by the batch. */
  function SpecBatch(t: Tables, importId: int, text: string, codec: Codec, now: int): (s: Step<()>)
    ensures s.after.imports == t.imports && s.after.nextImportId == t.nextImportId
  {
    match SplitSpec(text, importId, codec)
    case Failure(e) => Step(t, Failure(e))
    case Success(tools) => BatchStep(t, tools, now)
  }

  /** The tool sync of `InternalUpdateAsync`: nothing when the stored Json
      equals the new one, a deletion when the new one is empty, and a batch
      from the new document otherwise. */
  function SyncTools(t: Tables, importId: int, stored: Option<string>, json: Option<string>, codec: Codec, now: int): (s: Step<()>)
    ensures s.after.imports == t.imports && s.after.nextImportId == t.nextImportId
  {
    if stored == json then Step(t, Success(()))
    else if IsNullOrEmpty(json) then DeleteByImportStep(t, importId)
    else SpecBatch(t, importId, json.value, codec, now)
  }

  /** The Json an update carries once the download guard has run. */
  function UpdatedJson(request: UpdateImportRequest, fetched: Option<string>): Result<Option<string>> {
    if !IsNullOrEmpty(request.importFrom) then Download(request.json, request.importFrom, fetched)
    else Success(request.json)
  }

  /** `InternalUpdateAsync` on the row at position `i`: download, sync the
      tools, then copy the request onto the row and commit. */
  function InternalUpdateStep(t: Tables, i: nat, request: UpdateImportRequest, codec: Codec, fetched: Option<string>, now: int): Step<()>
    requires i < |t.imports|
  {
    var row := t.imports[i];
    match UpdatedJson(request, fetched)
    case Failure(e) => Step(t, Failure(e))
    case Success(json) =>
      var synced := SyncTools(t, row.id, row.json, json, codec, now);
      if synced.result.Failure? then synced
      else
        var s := synced.after;
        Save(s, s.(imports := s.imports[i := UpdateImport(row, request.(json := json), now)]))
  }

  /** `ImportAsync`: an import with the same name is updated in place when it
      has the same source and refused otherwise; a new import is committed
      first, and its tools are generated afterwards. */
  function ImportStep(t: Tables, request: CreateImportRequest, codec: Codec, fetched: Option<string>, now: int): Step<()> {
    match FirstWhere(t.imports, NamedAs(request.name))
    case Some(i) =>
      if t.imports[i].importFrom != request.importFrom then Step(t, Failure(ImportNameTaken(request.name)))
      else InternalUpdateStep(t, i, ToUpdate(request, t.imports[i].id), codec, fetched, now)
    case None => NewImportStep(t, request, codec, fetched, now)
  }

  /** The new-name branch of `ImportAsync`. */
  function NewImportStep(t: Tables, request: CreateImportRequest, codec: Codec, fetched: Option<string>, now: int): Step<()> {
    match Download(request.json, request.importFrom, fetched)
    case Failure(e) => Step(t, Failure(e))
    case Success(json) => InsertImport(t, ToImport(request.(json := json), t.nextImportId, now), codec, now)
  }

  /** The new row is saved on its own; its document, if any, is then split
      into a tool batch. */
  function InsertImport(t: Tables, row: Import, codec: Codec, now: int): Step<()> {
    var inserted := Save(t, t.(imports := t.imports + [row], nextImportId := t.nextImportId + 1));
    if inserted.result.Failure? || IsNullOrEmpty(row.json) then inserted
    else SpecBatch(inserted.after, row.id, row.json.value, codec, now)
  }

  /** `UpdateAsync`: the row must exist and no other row may have the name. */
  function UpdateStep(t: Tables, request: UpdateImportRequest, codec: Codec, fetched: Option<string>, now: int): Step<()> {
    match FirstWhere(t.imports, ImportHasId(request.id))
    case None => Step(t, Failure(ImportNotFound(request.id)))
    case Some(i) =>
      if FirstWhere(t.imports, NamedOtherThan(request.name, request.id)).Some? then
        Step(t, Failure(ImportNameTaken(request.name)))
      else
        InternalUpdateStep(t, i, request, codec, fetched, now)
  }

  /** `DeleteAsync`: the row goes, and the foreign key's cascade takes its tools. */
  function DeleteImportStep(t: Tables, id: int): Step<()> {
    match FirstWhere(t.imports, ImportHasId(id))
    case None => Step(t, Failure(ImportNotFound(id)))
    case Some(_) =>
      Save(t, t.(imports := Filter(t.imports, ImportOtherThan(id)), tools := Filter(t.tools, OutsideOf(id))))
  }

  /** `GetAsync`. */
  function GetImport(t: Tables, id: int): Result<ImportDto> {
    match FirstWhere(t.imports, ImportHasId(id))
    case None => Failure(ImportNotFound(id))
    case Some(i) => Success(ImportToDto(t.imports[i]))
  }

  /** `ListAsync`: the query record of every import row, in table order. */
  function ListImports(t: Tables): (r: seq<ImportDto>)
    ensures |r| == |t.imports|
    ensures forall k :: 0 <= k < |r| ==> r[k] == ImportToDto(t.imports[k])
  {
    seq(|t.imports|, k requires 0 <= k < |t.imports| => ImportToDto(t.imports[k]))
  }

  // ---------------------------------------------------------------------------
  // The service object.

  class ImportService {
    const db: McppDb
    const toolService: McpToolService
    const codec: Codec

    ghost predicate Valid() {
      toolService.db == db
    }

    constructor (db: McppDb, toolService: McpToolService, codec: Codec)
      requires toolService.db == db
      ensures this.db == db && this.toolService == toolService && this.codec == codec
      ensures Valid()
    {
      this.db := db;
      this.toolService := toolService;
      this.codec := codec;
    }

    method Import(request: CreateImportRequest, fetched: Option<string>, now: int) returns (r: Result<()>)
      requires Valid()
      modifies db
      ensures Step(db.State(), r) == ImportStep(old(db.State()), request, codec, fetched, now)
    {
      var same := FirstWhere(db.imports, NamedAs(request.name));
      if same.Some? {
        var row := db.imports[same.value];
        if row.importFrom != request.importFrom {
          return Failure(ImportNameTaken(request.name));
        }
        r := InternalUpdate(same.value, ToUpdate(request, row.id), fetched, now);
        return;
      }
      var json :- Download(request.json, request.importFrom, fetched);
      var row := ToImport(request.(json := json), db.nextImportId, now);
      var _ :- db.SaveChanges(db.State().(imports := db.imports + [row], nextImportId := db.nextImportId + 1));
      if !IsNullOrEmpty(json) {
        var tools :- SplitSwaggerToTools(json.value, row.id, codec);
        r := toolService.ImportTools(tools, now);
      } else {
        r := Success(());
      }
    }

    method Update(request: UpdateImportRequest, fetched: Option<string>, now: int) returns (r: Result<()>)
      requires Valid()
      modifies db
      ensures Step(db.State(), r) == UpdateStep(old(db.State()), request, codec, fetched, now)
    {
      var found := FirstWhere(db.imports, ImportHasId(request.id));
      if found.None? {
        return Failure(ImportNotFound(request.id));
      }
      var same := FirstWhere(db.imports, NamedOtherThan(request.name, request.id));
      if same.Some? {
        return Failure(ImportNameTaken(request.name));
      }
      r := InternalUpdate(found.value, request, fetched, now);
    }

    method Delete(id: int) returns (r: Result<()>)
      modifies db
      ensures Step(db.State(), r) == DeleteImportStep(old(db.State()), id)
    {
      var found := FirstWhere(db.imports, ImportHasId(id));
      if found.None? {
        return Failure(ImportNotFound(id));
      }
      r := db.SaveChanges(db.State().(imports := Filter(db.imports, ImportOtherThan(id)),
                                      tools := Filter(db.tools, OutsideOf(id))));
    }

    method InternalUpdate(i: nat, request: UpdateImportRequest, fetched: Option<string>, now: int) returns (r: Result<()>)
      requires Valid() && i < |db.imports|
      modifies db
      ensures Step(db.State(), r) == InternalUpdateStep(old(db.State()), i, request, codec, fetched, now)
    {
      var row := db.imports[i];
      var request := request;
      if !IsNullOrEmpty(request.importFrom) {
        var json :- Download(request.json, request.importFrom, fetched);
        request := request.(json := json);
      }
      var _ :- Sync(row.id, row.json, request.json, now);
      r := db.SaveChanges(db.State().(imports := db.imports[i := UpdateImport(row, request, now)]));
    }

    /** The tool sync inside `InternalUpdateAsync`. */
    method Sync(importId: int, stored: Option<string>, json: Option<string>, now: int) returns (r: Result<()>)
      requires Valid()
      modifies db
      ensures Step(db.State(), r) == SyncTools(old(db.State()), importId, stored, json, codec, now)
    {
      r := Success(());
      if stored != json {
        if IsNullOrEmpty(json) {
          r := toolService.DeleteByImport(importId);
        } else {
          var tools :- SplitSwaggerToTools(json.value, importId, codec);
          r := toolService.ImportTools(tools, now);
        }
      }
    }
  }

  // ---------------------------------------------------------------------------
  // Consistency of the import table.

  lemma ReplaceImportKeepsIds(t: Tables, i: nat, row: Import)
    requires IdsInOrder(t) && i < |t.imports| && row.id == t.imports[i].id
    ensures IdsInOrder(t.(imports := t.imports[i := row]))
  {
    var xs := t.imports[i := row];
    forall a, b | 0 <= a < b < |xs|
      ensures ImportIdBefore(xs[a], xs[b])
    {
      assert ImportIdBefore(t.imports[a], t.imports[b]);
    }
    forall x | x in xs
      ensures x.id < t.nextImportId
    {
      var k :| 0 <= k < |xs| && xs[k] == x;
      assert t.imports[k] in t.imports;
    }
  }

  lemma AppendImportKeepsIds(t: Tables, row: Import)
    requires IdsInOrder(t) && row.id == t.nextImportId
    ensures IdsInOrder(t.(imports := t.imports + [row], nextImportId := t.nextImportId + 1))
  {
    forall a, b | 0 <= a < |t.imports| && 0 <= b < |[row]|
      ensures ImportIdBefore(t.imports[a], [row][b])
    {
      assert t.imports[a] in t.imports;
    }
    AppendKeepsPairwise(t.imports, [row], ImportIdBefore);
  }

  /** Deleting an import together with its tools keeps every constraint. */
  lemma CascadeKeepsConsistent(t: Tables, id: int)
    requires Consistent(t)
    ensures Consistent(t.(imports := Filter(t.imports, ImportOtherThan(id)), tools := Filter(t.tools, OutsideOf(id))))
  {
    var imports := Filter(t.imports, ImportOtherThan(id));
    var tools := Filter(t.tools, OutsideOf(id));
    FilterMembers(t.imports, ImportOtherThan(id));
    FilterMembers(t.tools, OutsideOf(id));
    FilterKeepsPairwise(t.imports, ImportOtherThan(id), ImportsCompatible);
    FilterKeepsPairwise(t.imports, ImportOtherThan(id), ImportIdBefore);
    FilterKeepsPairwise(t.tools, OutsideOf(id), ToolsCompatible);
    FilterKeepsPairwise(t.tools, OutsideOf(id), ToolIdBefore);
    forall x | x in tools
      ensures HasImport(imports, x.importId)
    {
      assert HasImport(t.imports, x.importId);
      var y :| y in t.imports && y.id == x.importId;
      assert y in imports;
    }
  }

  /** The tools of a committed state all belong to imports below the next identity. */
  lemma NoToolsOfNextImport(t: Tables)
    requires Consistent(t)
    ensures Filter(t.tools, OutsideOf(t.nextImportId)) == t.tools
  {
    forall x | x in t.tools
      ensures OutsideOf(t.nextImportId)(x)
    {
      assert HasImport(t.imports, x.importId);
    }
    FilterKeepsAll(t.tools, OutsideOf(t.nextImportId));
  }

  lemma SpecBatchKeepsConsistent(t: Tables, importId: int, text: string, codec: Codec, now: int)
    requires Consistent(t)
    ensures Consistent(SpecBatch(t, importId, text, codec, now).after)
  {
    var split := SplitSpec(text, importId, codec);
    if split.Success? {
      BatchKeepsConsistent(t, split.value, now);
    }
  }

  lemma SyncKeepsConsistent(t: Tables, importId: int, stored: Option<string>, json: Option<string>, codec: Codec, now: int)
    requires Consistent(t)
    ensures Consistent(SyncTools(t, importId, stored, json, codec, now).after)
  {
    if stored != json {
      if IsNullOrEmpty(json) {
        ClearedTools(t, importId);
      } else {
        SpecBatchKeepsConsistent(t, importId, json.value, codec, now);
      }
    }
  }

  lemma InternalUpdateKeepsConsistent(t: Tables, i: nat, request: UpdateImportRequest, codec: Codec, fetched: Option<string>, now: int)
    requires Consistent(t) && i < |t.imports|
    ensures Consistent(InternalUpdateStep(t, i, request, codec, fetched, now).after)
  {
    var json := UpdatedJson(request, fetched);
    if json.Success? {
      var row := t.imports[i];
      var synced := SyncTools(t, row.id, row.json, json.value, codec, now);
      SyncKeepsConsistent(t, row.id, row.json, json.value, codec, now);
      if synced.result.Success? {
        var s := synced.after;
        var updated := UpdateImport(row, request.(json := json.value), now);
        ReplaceImportKeepsIds(s, i, updated);
        SaveKeepsConsistent(s, s.(imports := s.imports[i := updated]));
      }
    }
  }

  lemma NewImportKeepsConsistent(t: Tables, request: CreateImportRequest, codec: Codec, fetched: Option<string>, now: int)
    requires Consistent(t)
    ensures Consistent(NewImportStep(t, request, codec, fetched, now).after)
  {
    var json := Download(request.json, request.importFrom, fetched);
    if json.Success? {
      InsertImportKeepsConsistent(t, ToImport(request.(json := json.value), t.nextImportId, now), codec, now);
    }
  }

  lemma InsertImportKeepsConsistent(t: Tables, row: Import, codec: Codec, now: int)
    requires Consistent(t) && row.id == t.nextImportId
    ensures Consistent(InsertImport(t, row, codec, now).after)
  {
    var staged := t.(imports := t.imports + [row], nextImportId := t.nextImportId + 1);
    AppendImportKeepsIds(t, row);
    SaveKeepsConsistent(t, staged);
    var inserted := Save(t, staged);
    if inserted.result.Failure? || IsNullOrEmpty(row.json) {
      assert InsertImport(t, row, codec, now) == inserted;
    } else {
      SpecBatchKeepsConsistent(inserted.after, row.id, row.json.value, codec, now);
    }
  }

  lemma ImportKeepsConsistent(t: Tables, request: CreateImportRequest, codec: Codec, fetched: Option<string>, now: int)
    requires Consistent(t)
    ensures Consistent(ImportStep(t, request, codec, fetched, now).after)
  {
    match FirstWhere(t.imports, NamedAs(request.name))
    case Some(i) =>
      InternalUpdateKeepsConsistent(t, i, ToUpdate(request, t.imports[i].id), codec, fetched, now);
    case None =>
      NewImportKeepsConsistent(t, request, codec, fetched, now);
  }

  lemma UpdateKeepsConsistent(t: Tables, request: UpdateImportRequest, codec: Codec, fetched: Option<string>, now: int)
    requires Consistent(t)
    ensures Consistent(UpdateStep(t, request, codec, fetched, now).after)
  {
    var found := FirstWhere(t.imports, ImportHasId(request.id));
    if found.Some? {
      InternalUpdateKeepsConsistent(t, found.value, request, codec, fetched, now);
    }
  }

  lemma DeleteImportKeepsConsistent(t: Tables, id: int)
    requires Consistent(t)
    ensures Consistent(DeleteImportStep(t, id).after)
  {
    CascadeKeepsConsistent(t, id);
  }

  // ---------------------------------------------------------------------------
  // Properties of the operations.

  /** With unique names, the first import with a name is the only one. */
  lemma {:induction false} ImportNameRow(t: Tables, i: nat)
    requires Consistent(t) && i < |t.imports|
    ensures FirstWhere(t.imports, NamedAs(t.imports[i].name)) == Some(i)
  {
    var k := FirstWhere(t.imports, NamedAs(t.imports[i].name)).value;
    assert k < i ==> ImportsCompatible(t.imports[k], t.imports[i]);
  }

  /** With ascending identities, the first import with an identity is the only one. */
  lemma {:induction false} ImportIdRow(t: Tables, i: nat)
    requires Consistent(t) && i < |t.imports|
    ensures FirstWhere(t.imports, ImportHasId(t.imports[i].id)) == Some(i)
  {
    var k := FirstWhere(t.imports, ImportHasId(t.imports[i].id)).value;
    assert k < i ==> ImportIdBefore(t.imports[k], t.imports[i]);
  }

  /** Importing under a taken name from a different source is refused, and nothing changes. */
  lemma ImportRefusesNameFromOtherSource(t: Tables, request: CreateImportRequest, codec: Codec, fetched: Option<string>, now: int, i: nat)
    requires Consistent(t) && i < |t.imports|
    requires t.imports[i].name == request.name && t.imports[i].importFrom != request.importFrom
    ensures ImportStep(t, request, codec, fetched, now) == Step(t, Failure(ImportNameTaken(request.name)))
  {
    ImportNameRow(t, i);
  }

  /** The update path never adds or removes an import, nor changes an identity. */
  lemma InternalUpdateKeepsRows(t: Tables, i: nat, request: UpdateImportRequest, codec: Codec, fetched: Option<string>, now: int)
    requires i < |t.imports|
    ensures var after := InternalUpdateStep(t, i, request, codec, fetched, now).after;
      && |after.imports| == |t.imports| && after.nextImportId == t.nextImportId
      && forall k :: 0 <= k < |t.imports| ==> after.imports[k].id == t.imports[k].id
  {
  }

  /** Importing under a taken name from the same source updates that row in
      place: the import table keeps its rows and identities. */
  lemma ImportSameSourceUpdatesInPlace(t: Tables, request: CreateImportRequest, codec: Codec, fetched: Option<string>, now: int, i: nat)
    requires Consistent(t) && i < |t.imports|
    requires t.imports[i].name == request.name && t.imports[i].importFrom == request.importFrom
    ensures ImportStep(t, request, codec, fetched, now) ==
      InternalUpdateStep(t, i, ToUpdate(request, t.imports[i].id), codec, fetched, now)
    ensures var after := ImportStep(t, request, codec, fetched, now).after;
      && |after.imports| == |t.imports| && after.nextImportId == t.nextImportId
      && forall k :: 0 <= k < |t.imports| ==> after.imports[k].id == t.imports[k].id
  {
    ImportNameRow(t, i);
    InternalUpdateKeepsRows(t, i, ToUpdate(request, t.imports[i].id), codec, fetched, now);
  }

  /** `UpdateAsync` fails on an unknown identity, and on a name another
      import has; keeping one's own name is allowed. */
  lemma UpdateUnknownFails(t: Tables, request: UpdateImportRequest, codec: Codec, fetched: Option<string>, now: int)
    requires forall x :: x in t.imports ==> x.id != request.id
    ensures UpdateStep(t, request, codec, fetched, now) == Step(t, Failure(ImportNotFound(request.id)))
  {
  }

  lemma UpdateRefusesOthersName(t: Tables, request: UpdateImportRequest, codec: Codec, fetched: Option<string>, now: int, i: nat, j: nat)
    requires i < |t.imports| && t.imports[i].id == request.id
    requires j < |t.imports| && t.imports[j].name == request.name && t.imports[j].id != request.id
    ensures UpdateStep(t, request, codec, fetched, now) == Step(t, Failure(ImportNameTaken(request.name)))
  {
    assert NamedOtherThan(request.name, request.id)(t.imports[j]);
  }

  lemma UpdateKeepsOwnName(t: Tables, request: UpdateImportRequest, codec: Codec, fetched: Option<string>, now: int, i: nat)
    requires Consistent(t) && i < |t.imports| && t.imports[i].id == request.id
    requires forall x :: x in t.imports && x.name == request.name ==> x.id == request.id
    ensures UpdateStep(t, request, codec, fetched, now) == InternalUpdateStep(t, i, request, codec, fetched, now)
  {
    ImportIdRow(t, i);
  }

  /** Sync rule, unchanged document: the tool table is left alone and only
      the row is rewritten. */
  lemma SameJsonKeepsTools(t: Tables, i: nat, request: UpdateImportRequest, codec: Codec, fetched: Option<string>, now: int)
    requires i < |t.imports| && UpdatedJson(request, fetched) == Success(t.imports[i].json)
    ensures InternalUpdateStep(t, i, request, codec, fetched, now) ==
      Save(t, t.(imports := t.imports[i := UpdateImport(t.imports[i], request.(json := t.imports[i].json), now)]))
    ensures InternalUpdateStep(t, i, request, codec, fetched, now).after.tools == t.tools
  {
  }

  /** Sync rule, emptied document: every tool of the import is deleted, the
      other imports' tools stay. */
  lemma EmptiedJsonDropsTools(t: Tables, i: nat, request: UpdateImportRequest, codec: Codec, fetched: Option<string>, now: int, json: Option<string>)
    requires Consistent(t) && i < |t.imports|
    requires UpdatedJson(request, fetched) == Success(json) && json != t.imports[i].json && IsNullOrEmpty(json)
    ensures var after := InternalUpdateStep(t, i, request, codec, fetched, now).after;
      && Filter(after.tools, BelongsTo(t.imports[i].id)) == []
      && Filter(after.tools, OutsideOf(t.imports[i].id)) == Filter(t.tools, OutsideOf(t.imports[i].id))
  {
    var synced := DeleteByImportStep(t, t.imports[i].id);
    assert SyncTools(t, t.imports[i].id, t.imports[i].json, json, codec, now) == synced;
    assert InternalUpdateStep(t, i, request, codec, fetched, now).after.tools == synced.after.tools;
    DeleteByImportKeepsOthers(t, t.imports[i].id);
  }

  /** A document's tool batch never commits: a document without operations
      gives an empty batch, which fails on `importIds[0]`, and every request
      it does produce is unnamed, which the NOT NULL Name column refuses,
      after the import's old tools were already deleted. */
  lemma SpecBatchNeverCommits(t: Tables, importId: int, text: string, codec: Codec, now: int)
    requires Consistent(t)
    ensures SpecBatch(t, importId, text, codec, now).result.Failure?
    ensures SpecBatch(t, importId, text, codec, now).after ==
      if SplitSpec(text, importId, codec).Success? && SplitSpec(text, importId, codec).value != []
      then t.(tools := Filter(t.tools, OutsideOf(importId))) else t
  {
    var split := SplitSpec(text, importId, codec);
    if split.Success? {
      var requests := split.value;
      BatchRejectsBeforeChanging(t, requests, now);
      if requests != [] {
        SplitToolsUnnamed(text, importId, codec, requests);
        UnnamedBatchOnlyDeletes(t, requests, now);
      }
    }
  }

  /** Sync rule, changed document: the update is the document's batch, which
      never commits, so the row keeps its old fields. */
  lemma ChangedJsonNeverCommits(t: Tables, i: nat, request: UpdateImportRequest, codec: Codec, fetched: Option<string>, now: int, json: Option<string>)
    requires Consistent(t) && i < |t.imports|
    requires UpdatedJson(request, fetched) == Success(json) && json != t.imports[i].json && !IsNullOrEmpty(json)
    ensures InternalUpdateStep(t, i, request, codec, fetched, now) == SpecBatch(t, t.imports[i].id, json.value, codec, now)
    ensures InternalUpdateStep(t, i, request, codec, fetched, now).result.Failure?
    ensures InternalUpdateStep(t, i, request, codec, fetched, now).after.imports == t.imports
  {
    SpecBatchNeverCommits(t, t.imports[i].id, json.value, codec, now);
  }

  /** A name no import has takes the new-import branch. */
  lemma NewNameInserts(t: Tables, request: CreateImportRequest, codec: Codec, fetched: Option<string>, now: int)
    requires forall k :: 0 <= k < |t.imports| ==> t.imports[k].name != request.name
    ensures ImportStep(t, request, codec, fetched, now) == NewImportStep(t, request, codec, fetched, now)
  {
  }

  /** A new import is committed before its tools are generated: the row stays
      whatever happens next, the tool table is unchanged, and an import that
      carries a document never succeeds. */
  lemma NewImportCommitsRowFirst(t: Tables, request: CreateImportRequest, codec: Codec, fetched: Option<string>, now: int, json: Option<string>)
    requires Consistent(t)
    requires Download(request.json, request.importFrom, fetched) == Success(json)
    requires var row := ToImport(request.(json := json), t.nextImportId, now);
      DbConstraints(t.imports + [row], t.tools)
    ensures var after := NewImportStep(t, request, codec, fetched, now).after;
      && after.imports == t.imports + [ToImport(request.(json := json), t.nextImportId, now)]
      && after.tools == t.tools
    ensures NewImportStep(t, request, codec, fetched, now).result.Success? <==> IsNullOrEmpty(json)
  {
    var row := ToImport(request.(json := json), t.nextImportId, now);
    var staged := t.(imports := t.imports + [row], nextImportId := t.nextImportId + 1);
    AppendImportKeepsIds(t, row);
    assert Save(t, staged) == Step(staged, Success(()));
    if !IsNullOrEmpty(json) {
      var step := SpecBatch(staged, row.id, json.value, codec, now);
      assert NewImportStep(t, request, codec, fetched, now) == step;
      SpecBatchNeverCommits(staged, row.id, json.value, codec, now);
      NoToolsOfNextImport(t);
      assert step.after.tools == t.tools;
    }
  }

  /** `DeleteAsync` removes exactly that import and, by the cascade, its tools. */
  lemma DeleteImportCascades(t: Tables, i: nat)
    requires Consistent(t) && i < |t.imports|
    ensures var id := t.imports[i].id;
      DeleteImportStep(t, id) ==
        Step(t.(imports := t.imports[..i] + t.imports[i + 1..], tools := Filter(t.tools, OutsideOf(id))), Success(()))
  {
    var id := t.imports[i].id;
    ImportIdRow(t, i);
    forall j | 0 <= j < |t.imports| && j != i
      ensures ImportOtherThan(id)(t.imports[j])
    {
      assert j < i ==> ImportIdBefore(t.imports[j], t.imports[i]);
      assert i < j ==> ImportIdBefore(t.imports[i], t.imports[j]);
    }
    FilterDropsOne(t.imports, ImportOtherThan(id), i);
    CascadeKeepsConsistent(t, id);
  }

  /** `GetAsync` fails on an unknown identity and otherwise returns that row's record. */
  lemma GetImportFindsRow(t: Tables, id: int)
    requires Consistent(t)
    ensures GetImport(t, id).Failure? <==> forall x :: x in t.imports ==> x.id != id
    ensures forall i :: 0 <= i < |t.imports| && t.imports[i].id == id ==> GetImport(t, id) == Success(ImportToDto(t.imports[i]))
  {
    forall i | 0 <= i < |t.imports| && t.imports[i].id == id
      ensures GetImport(t, id) == Success(ImportToDto(t.imports[i]))
    {
      ImportIdRow(t, i);
    }
    var k := FirstWhere(t.imports, ImportHasId(id));
    if k.Some? {
      assert t.imports[k.value] in t.imports;
    }
  }
}
