/** The tool store rules (Services/Impl/McpToolService.cs): replacing the
    tools of one import in a batch, the single upsert that goes through
    `FindAsync`, and the lookups and edits by identity. Each operation is a
    step function over the committed tables; `McpToolService` implements
    them on the shared database. */
module ToolStore {
  import opened Base
  import opened Entities
  import opened Store

  // ---------------------------------------------------------------------------
  // Row conditions of the queries.

  function BelongsTo(importId: int): McpTool -> bool {
    (x: McpTool) => x.importId == importId
  }

  function OutsideOf(importId: int): McpTool -> bool {
    (x: McpTool) => x.importId != importId
  }

  function HasId(id: int): McpTool -> bool {
    (x: McpTool) => x.id == id
  }

  function OtherThan(id: int): McpTool -> bool {
    (x: McpTool) => x.id != id
  }

  function SameSignature(request: CreateToolRequest): McpTool -> bool {
    (x: McpTool) => x.httpMethod == request.httpMethod && x.requestPath == request.requestPath
  }

  function SameName(name: Option<string>): McpTool -> bool {
    (x: McpTool) => x.name == name
  }

  // ---------------------------------------------------------------------------
  // Batch replacement.

  function ImportIdsOf(requests: seq<CreateToolRequest>): (r: seq<int>)
    ensures |r| == |requests|
    ensures forall k :: 0 <= k < |requests| ==> r[k] == requests[k].importId
  {
    seq(|requests|, k requires 0 <= k < |requests| => requests[k].importId)
  }

  /** The rows `AddRange` inserts: identities from `firstId` on, in request order. */
  function Inserted(requests: seq<CreateToolRequest>, firstId: int, now: int): (r: seq<McpTool>)
    ensures |r| == |requests|
    ensures forall k :: 0 <= k < |r| ==> r[k] == ToTool(requests[k], firstId + k, now)
  {
    seq(|requests|, k requires 0 <= k < |requests| => ToTool(requests[k], firstId + k, now))
  }

  /** `DeleteByImportAsync`; only the tool table changes. */
  function DeleteByImportStep(t: Tables, importId: int): (s: Step<()>)
    ensures s.after.imports == t.imports && s.after.nextImportId == t.nextImportId
  {
    Save(t, t.(tools := Filter(t.tools, OutsideOf(importId))))
  }

  /** Batch `ImportAsync`: one distinct ImportId, the deletion committed on
      its own, then the insertion. An empty batch fails on `importIds[0]`. */
  function BatchStep(t: Tables, requests: seq<CreateToolRequest>, now: int): (s: Step<()>)
    ensures s.after.imports == t.imports && s.after.nextImportId == t.nextImportId
  {
    var importIds := Dedup(ImportIdsOf(requests));
    if |importIds| > 1 then Step(t, Failure(MixedImports(importIds)))
    else if importIds == [] then Step(t, Failure(EmptyBatch))
    else
      var cleared := DeleteByImportStep(t, importIds[0]);
      if cleared.result.Failure? then cleared
      else
        var c := cleared.after;
        Save(c, c.(tools := c.tools + Inserted(requests, c.nextToolId, now),
                   nextToolId := c.nextToolId + |requests|))
  }

  // ---------------------------------------------------------------------------
  // Single upsert.

  /** `FindAsync`: the position of the row an upsert rewrites (None: insert a
      new row), or the conflict that stops it. */
  function FindTarget(tools: seq<McpTool>, request: ToolRequest): (r: Result<Option<nat>>)
    ensures r.Success? && r.value.Some? ==> r.value.value < |tools|
  {
    var fields := request.fields;
    var target :-
      if request.Update? then
        var i := FirstWhere(tools, HasId(request.id));
        if i.None? then Failure(ToolNotFound(request.id))
        else
          var same := FirstWhere(tools, SameSignature(fields));
          if same.Some? then Failure(SignatureTaken(tools[same.value].id)) else Success(i)
      else
        Success(FirstWhere(tools, SameSignature(fields)));
    var sameName := FirstWhere(tools, SameName(fields.name));
    if sameName.Some? && (target.None? || tools[target.value].id != tools[sameName.value].id) then
      Failure(ToolNameTaken(tools[sameName.value].id))
    else
      Success(target)
  }

  /** The Enabled flag an upsert leaves: the update request's, or true. */
  function EnabledAfter(request: ToolRequest): bool {
    if request.Update? then request.enabled else true
  }

  /** Single `ImportAsync` (and `UpdateAsync`, which forwards to it). */
  function UpsertStep(t: Tables, request: ToolRequest, now: int): Step<()> {
    match FindTarget(t.tools, request)
    case Failure(e) => Step(t, Failure(e))
    case Success(None) =>
      Save(t, t.(tools := t.tools + [ToTool(request.fields, t.nextToolId, now)],
                 nextToolId := t.nextToolId + 1))
    case Success(Some(i)) =>
      Save(t, t.(tools := t.tools[i := UpdateTool(t.tools[i], request.fields, EnabledAfter(request), now)]))
  }

  // ---------------------------------------------------------------------------
  // Lookups and edits by identity (`FindAsync(id)` is a primary-key lookup).

  function SetEnabledStep(t: Tables, id: int, enabled: bool): Step<()> {
    match FirstWhere(t.tools, HasId(id))
    case None => Step(t, Failure(ToolNotFound(id)))
    case Some(i) => Save(t, t.(tools := t.tools[i := t.tools[i].(enabled := enabled)]))
  }

  function DeleteStep(t: Tables, id: int): Step<()> {
    match FirstWhere(t.tools, HasId(id))
    case None => Step(t, Failure(ToolNotFound(id)))
    case Some(i) => Save(t, t.(tools := Filter(t.tools, OtherThan(id))))
  }

  /** `GetAsync`. */
  function GetTool(t: Tables, id: int): Result<ToolDto> {
    match FirstWhere(t.tools, HasId(id))
    case None => Failure(ToolNotFound(id))
    case Some(i) => Success(ToolToDto(t.tools[i]))
  }

  /** `ListAsync`: the query records of one import's tools, in table order. */
  function ListTools(t: Tables, importId: int): seq<ToolDto> {
    var rows := Filter(t.tools, BelongsTo(importId));
    seq(|rows|, k requires 0 <= k < |rows| => ToolToDto(rows[k]))
  }

  // ---------------------------------------------------------------------------
  // The service object.

  class McpToolService {
    const db: McppDb

    constructor (db: McppDb)
      ensures this.db == db
    {
      this.db := db;
    }

    /** Batch `ImportAsync`. */
    method ImportTools(requests: seq<CreateToolRequest>, now: int) returns (r: Result<()>)
      modifies db
      ensures Step(db.State(), r) == BatchStep(old(db.State()), requests, now)
    {
      var importIds := Dedup(ImportIdsOf(requests));
      if |importIds| > 1 {
        return Failure(MixedImports(importIds));
      }
      if importIds == [] {
        return Failure(EmptyBatch);
      }
      var _ :- DeleteByImport(importIds[0]);
      var added := Inserted(requests, db.nextToolId, now);
      r := db.SaveChanges(db.State().(tools := db.tools + added, nextToolId := db.nextToolId + |requests|));
    }

    /** Single `ImportAsync`. */
    method ImportTool(request: ToolRequest, now: int) returns (r: Result<()>)
      modifies db
      ensures Step(db.State(), r) == UpsertStep(old(db.State()), request, now)
    {
      var target :- Find(request);
      var staged;
      if target.None? {
        staged := db.State().(tools := db.tools + [ToTool(request.fields, db.nextToolId, now)],
                              nextToolId := db.nextToolId + 1);
      } else {
        var i := target.value;
        staged := db.State().(tools := db.tools[i := UpdateTool(db.tools[i], request.fields, EnabledAfter(request), now)]);
      }
      r := db.SaveChanges(staged);
    }

    /** `FindAsync(request, id)`. */
    method Find(request: ToolRequest) returns (r: Result<Option<nat>>)
      ensures r == FindTarget(db.tools, request)
    {
      var tools := db.tools;
      var fields := request.fields;
      var target: Option<nat> := None;
      if request.Update? {
        target := FirstWhere(tools, HasId(request.id));
        if target.None? {
          return Failure(ToolNotFound(request.id));
        }
      }
      if target.None? {
        target := FirstWhere(tools, SameSignature(fields));
      } else {
        var same := FirstWhere(tools, SameSignature(fields));
        if same.Some? {
          return Failure(SignatureTaken(tools[same.value].id));
        }
      }
      var sameName := FirstWhere(tools, SameName(fields.name));
      if sameName.Some? && (target.None? || tools[target.value].id != tools[sameName.value].id) {
        return Failure(ToolNameTaken(tools[sameName.value].id));
      }
      return Success(target);
    }

    method Delete(id: int) returns (r: Result<()>)
      modifies db
      ensures Step(db.State(), r) == DeleteStep(old(db.State()), id)
    {
      var i := FirstWhere(db.tools, HasId(id));
      if i.None? {
        return Failure(ToolNotFound(id));
      }
      r := db.SaveChanges(db.State().(tools := Filter(db.tools, OtherThan(id))));
    }

    method DeleteByImport(importId: int) returns (r: Result<()>)
      modifies db
      ensures Step(db.State(), r) == DeleteByImportStep(old(db.State()), importId)
    {
      r := db.SaveChanges(db.State().(tools := Filter(db.tools, OutsideOf(importId))));
    }

    method SetEnabled(id: int, enabled: bool) returns (r: Result<()>)
      modifies db
      ensures Step(db.State(), r) == SetEnabledStep(old(db.State()), id, enabled)
    {
      var i := FirstWhere(db.tools, HasId(id));
      if i.None? {
        return Failure(ToolNotFound(id));
      }
      var row := db.tools[i.value].(enabled := enabled);
      r := db.SaveChanges(db.State().(tools := db.tools[i.value := row]));
    }
  }

  // ---------------------------------------------------------------------------
  // Properties of the batch.

  /** A batch is refused before anything changes when its requests name more
      than one import, or when it is empty. */
  lemma BatchRejectsBeforeChanging(t: Tables, requests: seq<CreateToolRequest>, now: int)
    ensures |Dedup(ImportIdsOf(requests))| > 1 ==>
      BatchStep(t, requests, now) == Step(t, Failure(MixedImports(Dedup(ImportIdsOf(requests)))))
    ensures requests == [] ==> BatchStep(t, requests, now) == Step(t, Failure(EmptyBatch))
  {
  }

  /** The requests of a batch that gets past the import check all name the one import. */
  lemma {:induction false} BatchImportId(requests: seq<CreateToolRequest>, k: nat)
    requires |Dedup(ImportIdsOf(requests))| == 1 && k < |requests|
    ensures requests[k].importId == Dedup(ImportIdsOf(requests))[0]
  {
    assert ImportIdsOf(requests)[k] in ImportIdsOf(requests);
  }

  /** The tools a batch leaves in place once the deletion is committed. */
  lemma ClearedTools(t: Tables, importId: int)
    requires Consistent(t)
    ensures DeleteByImportStep(t, importId) == Step(t.(tools := Filter(t.tools, OutsideOf(importId))), Success(()))
    ensures Consistent(t.(tools := Filter(t.tools, OutsideOf(importId))))
  {
    DropToolsKeepsConsistent(t, OutsideOf(importId));
    SaveCommitsWhenConsistent(t, t.(tools := Filter(t.tools, OutsideOf(importId))));
  }

  /** What a successful batch commits: the other imports' rows, then the inserted ones. */
  lemma BatchCommits(t: Tables, requests: seq<CreateToolRequest>, now: int)
    requires BatchStep(t, requests, now).result.Success?
    ensures requests != []
    ensures forall k :: 0 <= k < |requests| ==> requests[k].importId == requests[0].importId
    ensures BatchStep(t, requests, now).after.tools ==
      Filter(t.tools, OutsideOf(requests[0].importId)) + Inserted(requests, t.nextToolId, now)
  {
    var id := Dedup(ImportIdsOf(requests))[0];
    forall k | 0 <= k < |requests|
      ensures requests[k].importId == id
    {
      BatchImportId(requests, k);
    }
  }

  /** Rows of other imports followed by rows of one import separate again by import. */
  lemma SeparateByImport(kept: seq<McpTool>, added: seq<McpTool>, importId: int)
    requires forall x :: x in kept ==> x.importId != importId
    requires forall x :: x in added ==> x.importId == importId
    ensures Filter(kept + added, BelongsTo(importId)) == added
    ensures Filter(kept + added, OutsideOf(importId)) == kept
  {
    FilterAppend(kept, added, BelongsTo(importId));
    FilterAppend(kept, added, OutsideOf(importId));
    FilterDropsAll(kept, BelongsTo(importId));
    FilterKeepsAll(kept, OutsideOf(importId));
    FilterKeepsAll(added, BelongsTo(importId));
    FilterDropsAll(added, OutsideOf(importId));
  }

  /** After a successful batch the import's tools are exactly the inserted
      rows, in request order and enabled, and no other import's tools moved. */
  lemma BatchReplacesTools(t: Tables, requests: seq<CreateToolRequest>, now: int)
    requires BatchStep(t, requests, now).result.Success?
    ensures requests != []
    ensures var after := BatchStep(t, requests, now).after;
      && Filter(after.tools, BelongsTo(requests[0].importId)) == Inserted(requests, t.nextToolId, now)
      && Filter(after.tools, OutsideOf(requests[0].importId)) == Filter(t.tools, OutsideOf(requests[0].importId))
      && forall x :: x in Filter(after.tools, BelongsTo(requests[0].importId)) ==> x.enabled
  {
    BatchCommits(t, requests, now);
    var id := requests[0].importId;
    FilterMembers(t.tools, OutsideOf(id));
    SeparateByImport(Filter(t.tools, OutsideOf(id)), Inserted(requests, t.nextToolId, now), id);
  }

  /** Inserted rows carry ascending identities from the given one on. */
  lemma InsertedIds(requests: seq<CreateToolRequest>, firstId: int, now: int)
    ensures Pairwise(Inserted(requests, firstId, now), ToolIdBefore)
    ensures forall x :: x in Inserted(requests, firstId, now) ==> firstId <= x.id < firstId + |requests|
  {
  }

  lemma BatchKeepsConsistent(t: Tables, requests: seq<CreateToolRequest>, now: int)
    requires Consistent(t)
    ensures Consistent(BatchStep(t, requests, now).after)
  {
    var ids := Dedup(ImportIdsOf(requests));
    if |ids| == 1 {
      ClearedTools(t, ids[0]);
      var c := t.(tools := Filter(t.tools, OutsideOf(ids[0])));
      InsertedIds(requests, c.nextToolId, now);
      AppendToolsKeepsIds(c, Inserted(requests, c.nextToolId, now), c.nextToolId + |requests|);
      SaveKeepsConsistent(c, c.(tools := c.tools + Inserted(requests, c.nextToolId, now),
                                nextToolId := c.nextToolId + |requests|));
    }
  }

  /** A non-empty batch of unnamed requests for one import never commits its
      insertion (Name is NOT NULL), yet the deletion before it stays: the
      import is left with no tools. */
  lemma UnnamedBatchOnlyDeletes(t: Tables, requests: seq<CreateToolRequest>, now: int)
    requires Consistent(t) && requests != []
    requires forall k :: 0 <= k < |requests| ==> requests[k].importId == requests[0].importId
    requires forall k :: 0 <= k < |requests| ==> requests[k].name.None?
    ensures BatchStep(t, requests, now) ==
      Step(t.(tools := Filter(t.tools, OutsideOf(requests[0].importId))), Failure(ConstraintViolation))
  {
    var id := requests[0].importId;
    DedupSingleValue(ImportIdsOf(requests), id);
    ClearedTools(t, id);
    var c := t.(tools := Filter(t.tools, OutsideOf(id)));
    var staged := c.tools + Inserted(requests, c.nextToolId, now);
    assert staged[|c.tools|] in staged;
  }

  // ---------------------------------------------------------------------------
  // Properties of the upsert.

  /** With unique signatures, the first row with a signature is the only one. */
  lemma {:induction false} SignatureRow(tools: seq<McpTool>, fields: CreateToolRequest, j: nat)
    requires ToolIndexesHold(tools) && j < |tools| && SameSignature(fields)(tools[j])
    ensures FirstWhere(tools, SameSignature(fields)) == Some(j)
  {
    var k := FirstWhere(tools, SameSignature(fields)).value;
    assert k < j ==> ToolsCompatible(tools[k], tools[j]);
  }

  /** With unique names, the first row with a name is the only one. */
  lemma {:induction false} NameRow(tools: seq<McpTool>, name: Option<string>, j: nat)
    requires ToolIndexesHold(tools) && j < |tools| && tools[j].name == name
    ensures FirstWhere(tools, SameName(name)) == Some(j)
  {
    var k := FirstWhere(tools, SameName(name)).value;
    assert k < j ==> ToolsCompatible(tools[k], tools[j]);
  }

  /** With unique identities, the first row with an identity is the only one. */
  lemma IdRow(t: Tables, j: nat)
    requires Consistent(t) && j < |t.tools|
    ensures FirstWhere(t.tools, HasId(t.tools[j].id)) == Some(j)
  {
    var k := FirstWhere(t.tools, HasId(t.tools[j].id)).value;
    IdentifiesRows(t, k, j);
  }

  /** An update naming an identity no row has fails and changes nothing. */
  lemma UpsertUnknownIdFails(t: Tables, request: ToolRequest, now: int)
    requires request.Update? && forall x :: x in t.tools ==> x.id != request.id
    ensures UpsertStep(t, request, now) == Step(t, Failure(ToolNotFound(request.id)))
  {
  }

  /** An update by identity fails whenever any row, the target row included,
      already has the requested (HttpMethod, RequestPath). */
  lemma UpsertByIdRejectsTakenSignature(t: Tables, request: ToolRequest, now: int, i: nat, j: nat)
    requires Consistent(t) && request.Update?
    requires i < |t.tools| && t.tools[i].id == request.id
    requires j < |t.tools| && SameSignature(request.fields)(t.tools[j])
    ensures UpsertStep(t, request, now) == Step(t, Failure(SignatureTaken(t.tools[j].id)))
  {
    IdRow(t, i);
    SignatureRow(t.tools, request.fields, j);
  }

  /** A create request whose signature and name are both new inserts a row,
      and the insertion is committed exactly when the request carries a name
      and refers to an existing import. */
  lemma UpsertCreateInserts(t: Tables, request: ToolRequest, now: int)
    requires Consistent(t) && request.Create?
    requires forall x :: x in t.tools ==> !SameSignature(request.fields)(x) && x.name != request.fields.name
    ensures UpsertStep(t, request, now) ==
      Save(t, t.(tools := t.tools + [ToTool(request.fields, t.nextToolId, now)], nextToolId := t.nextToolId + 1))
    ensures UpsertStep(t, request, now).result.Success? <==>
      request.fields.name.Some? && HasImport(t.imports, request.fields.importId)
  {
    var added := ToTool(request.fields, t.nextToolId, now);
    var ts := t.tools + [added];
    assert added in ts;
    if added.name.Some? && HasImport(t.imports, added.importId) {
      forall a, b | 0 <= a < |t.tools| && 0 <= b < |[added]|
        ensures ToolsCompatible(t.tools[a], [added][b])
      {
        assert t.tools[a] in t.tools;
      }
      AppendKeepsPairwise(t.tools, [added], ToolsCompatible);
      assert DbConstraints(t.imports, ts);
    }
  }

  /** A create request whose signature some row already has rewrites that row
      and turns it back on, provided no other row has the requested name. */
  lemma UpsertCreateUpdatesSignatureRow(t: Tables, request: ToolRequest, now: int, i: nat)
    requires Consistent(t) && request.Create?
    requires i < |t.tools| && SameSignature(request.fields)(t.tools[i])
    requires forall j :: 0 <= j < |t.tools| && t.tools[j].name == request.fields.name ==> j == i
    ensures UpsertStep(t, request, now) ==
      Save(t, t.(tools := t.tools[i := UpdateTool(t.tools[i], request.fields, true, now)]))
  {
    SignatureRow(t.tools, request.fields, i);
  }

  /** A resolved upsert never collides on the name: every row with the
      requested name is the target row itself. */
  lemma FindTargetNameGuard(t: Tables, request: ToolRequest, target: Option<nat>, j: nat)
    requires Consistent(t) && FindTarget(t.tools, request) == Success(target)
    requires j < |t.tools| && t.tools[j].name == request.fields.name
    ensures target == Some(j)
  {
    NameRow(t.tools, request.fields.name, j);
    if target.Some? {
      IdentifiesRows(t, target.value, j);
    }
  }

  lemma UpsertKeepsConsistent(t: Tables, request: ToolRequest, now: int)
    requires Consistent(t)
    ensures Consistent(UpsertStep(t, request, now).after)
  {
    match FindTarget(t.tools, request)
    case Failure(_) =>
    case Success(None) =>
      var added := ToTool(request.fields, t.nextToolId, now);
      AppendToolsKeepsIds(t, [added], t.nextToolId + 1);
      SaveKeepsConsistent(t, t.(tools := t.tools + [added], nextToolId := t.nextToolId + 1));
    case Success(Some(i)) =>
      var row := UpdateTool(t.tools[i], request.fields, EnabledAfter(request), now);
      ReplaceToolKeepsIds(t, i, row);
      SaveKeepsConsistent(t, t.(tools := t.tools[i := row]));
  }

  // ---------------------------------------------------------------------------
  // Properties of the edits by identity.

  /** Every edit by identity fails on an identity no row has, and changes nothing. */
  lemma UnknownIdFails(t: Tables, id: int, enabled: bool)
    requires forall x :: x in t.tools ==> x.id != id
    ensures SetEnabledStep(t, id, enabled) == Step(t, Failure(ToolNotFound(id)))
    ensures DeleteStep(t, id) == Step(t, Failure(ToolNotFound(id)))
    ensures GetTool(t, id) == Failure(ToolNotFound(id))
  {
  }

  /** `SetEnabledAsync` changes the Enabled flag of that one row and nothing else. */
  lemma SetEnabledChangesOnlyFlag(t: Tables, i: nat, enabled: bool)
    requires Consistent(t) && i < |t.tools|
    ensures SetEnabledStep(t, t.tools[i].id, enabled) ==
      Step(t.(tools := t.tools[i := t.tools[i].(enabled := enabled)]), Success(()))
    ensures Consistent(SetEnabledStep(t, t.tools[i].id, enabled).after)
  {
    IdRow(t, i);
    ReplaceToolKeepsConsistent(t, i, t.tools[i].(enabled := enabled));
    SaveCommitsWhenConsistent(t, t.(tools := t.tools[i := t.tools[i].(enabled := enabled)]));
  }

  /** `DeleteAsync` removes exactly that row. */
  lemma DeleteRemovesRow(t: Tables, i: nat)
    requires Consistent(t) && i < |t.tools|
    ensures DeleteStep(t, t.tools[i].id) == Step(t.(tools := t.tools[..i] + t.tools[i + 1..]), Success(()))
    ensures Consistent(DeleteStep(t, t.tools[i].id).after)
  {
    var id := t.tools[i].id;
    IdRow(t, i);
    forall j | 0 <= j < |t.tools| && j != i
      ensures OtherThan(id)(t.tools[j])
    {
      IdentifiesRows(t, i, j);
    }
    FilterDropsOne(t.tools, OtherThan(id), i);
    DropToolsKeepsConsistent(t, OtherThan(id));
    SaveCommitsWhenConsistent(t, t.(tools := Filter(t.tools, OtherThan(id))));
  }

  /** `GetAsync` returns the query record of the row with that identity. */
  lemma GetFindsRow(t: Tables, i: nat)
    requires Consistent(t) && i < |t.tools|
    ensures GetTool(t, t.tools[i].id) == Success(ToolToDto(t.tools[i]))
  {
    IdRow(t, i);
  }

  /** `DeleteByImportAsync` leaves the tables consistent and the other imports' tools in place. */
  lemma DeleteByImportKeepsOthers(t: Tables, importId: int)
    requires Consistent(t)
    ensures var after := DeleteByImportStep(t, importId).after;
      && Consistent(after)
      && Filter(after.tools, BelongsTo(importId)) == []
      && Filter(after.tools, OutsideOf(importId)) == Filter(t.tools, OutsideOf(importId))
  {
    ClearedTools(t, importId);
    var kept := Filter(t.tools, OutsideOf(importId));
    FilterMembers(t.tools, OutsideOf(importId));
    FilterDropsAll(kept, BelongsTo(importId));
    FilterKeepsAll(kept, OutsideOf(importId));
  }

  /** `ListAsync(importId)` lists a row exactly when it belongs to that import. */
  lemma ListToolsExact(t: Tables, importId: int)
    ensures forall x :: x in t.tools ==> (ToolToDto(x) in ListTools(t, importId) <==> x.importId == importId)
    ensures forall d :: d in ListTools(t, importId) ==> d.importId == importId
  {
    var rows := Filter(t.tools, BelongsTo(importId));
    FilterMembers(t.tools, BelongsTo(importId));
    var r := ListTools(t, importId);
    forall x | x in t.tools
      ensures ToolToDto(x) in r <==> x.importId == importId
    {
      if x.importId == importId {
        var k :| 0 <= k < |rows| && rows[k] == x;
        assert r[k] == ToolToDto(x);
      }
      if ToolToDto(x) in r {
        var k :| 0 <= k < |r| && r[k] == ToolToDto(x);
        ToolToDtoInjective(rows[k], x);
        assert rows[k] in rows;
      }
    }
    forall d | d in r
      ensures d.importId == importId
    {
      var k :| 0 <= k < |r| && r[k] == d;
      assert rows[k] in rows;
    }
  }
}
