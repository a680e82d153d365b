/** The MCP server's view of the tools (Core/McpToolsKeeper.cs): the tool
    list is the statically registered tools followed by every stored tool of
    every enabled import, announced as `<import name>_<tool name>`; a call
    goes to a static tool of that name if there is one, and is otherwise
    forwarded over HTTP for the stored tool with that announced name. */
module Keeper {
  import opened Base
  import opened JsonModel
  import opened Entities
  import opened Store
  import opened ToolStore
  import opened ImportStore
  import opened Forwarder

  /** A tool as announced to MCP clients. */
  datatype ProtocolTool = ProtocolTool(name: string, description: string, inputSchema: Json, openWorldHint: bool)

  /** The statically configured capability; its tool collection may be absent. */
  datatype ToolsCapability = ToolsCapability(toolCollection: Option<seq<ProtocolTool>>)

  /** The name of a call, and its arguments when it has any. */
  datatype CallParams = CallParams(name: string, arguments: Option<seq<(string, Json)>>)

  /** Where a call goes. */
  datatype Dispatch = Static(name: string) | Persisted(tool: McpTool, owner: Import)

  /** What a call answers: a static tool's own answer is outside this model;
      a forwarded call answers the response body as one text content. */
  datatype CallResult = StaticCall(name: string) | TextContent(text: string)

  /** `$"{tool.Import.Name}_{tool.Name}"`; a missing tool name formats as empty text. */
  function ExposedName(importName: string, toolName: Option<string>): string {
    importName + "_" + toolName.GetOr("")
  }

  /** `T2t`: the stored schema text must parse. */
  function ToProtocolTool(tool: McpTool, owner: Import, codec: Codec): Result<ProtocolTool> {
    var schema :- codec.parse(tool.inputSchema);
    Success(ProtocolTool(ExposedName(owner.name, tool.name), tool.description, schema, true))
  }

  function Announce(owner: Import, codec: Codec): McpTool -> Result<seq<ProtocolTool>> {
    (tool: McpTool) => var p :- ToProtocolTool(tool, owner, codec); Success([p])
  }

  /** `x.McpTools.Select(T2t)`: an import's rows, in table order. */
  function ImportTools(tools: seq<McpTool>, codec: Codec): Import -> Result<seq<ProtocolTool>> {
    (owner: Import) => SelectMany(Filter(tools, BelongsTo(owner.id)), Announce(owner, codec))
  }

  function IsEnabled(): Import -> bool {
    (x: Import) => x.enabled
  }

  /** `ListToolsHandler`: static tools first, then the tools of the enabled
      imports. An unset capability is a null dereference. */
  function ListSpec(capability: Option<ToolsCapability>, t: Tables, codec: Codec): Result<seq<ProtocolTool>> {
    if capability.None? then Failure(Missing)
    else
      var imported :- SelectMany(Filter(t.imports, IsEnabled()), ImportTools(t.tools, codec));
      Success(capability.value.toolCollection.GetOr([]) + imported)
  }

  /** The import a tool row belongs to (the `tool.Import` navigation). */
  function Owner(imports: seq<Import>, id: int): (r: Option<Import>)
    ensures r.Some? ==> r.value in imports && r.value.id == id
    ensures r.None? ==> forall x :: x in imports ==> x.id != id
  {
    match FirstWhere(imports, ImportHasId(id))
    case None => None
    case Some(i) => Some(imports[i])
  }

  /** The stored rows a call name reaches: `x.Import.Name + "_" + x.Name == name`. */
  function CalledAs(imports: seq<Import>, name: string): McpTool -> bool {
    (x: McpTool) => Owner(imports, x.importId).Some? && ExposedName(Owner(imports, x.importId).value.name, x.name) == name
  }

  function NamedTool(name: string): ProtocolTool -> bool {
    (p: ProtocolTool) => p.name == name
  }

  /** The dispatch of `CallToolHandler`: a static tool of that name wins;
      otherwise the first stored row with that announced name, whatever the
      enabled flags of the row and its import; otherwise the call fails. */
  function DispatchSpec(collection: Option<seq<ProtocolTool>>, t: Tables, name: string): (r: Result<Dispatch>)
    ensures collection.Some? && (exists p :: p in collection.value && p.name == name) ==> r == Success(Static(name))
    ensures r.Success? && r.value.Persisted? ==>
      && r.value.tool in t.tools && r.value.owner in t.imports && r.value.owner.id == r.value.tool.importId
      && ExposedName(r.value.owner.name, r.value.tool.name) == name
    ensures r.Failure? <==>
      && (collection.None? || forall p :: p in collection.value ==> p.name != name)
      && forall x :: x in t.tools ==> !CalledAs(t.imports, name)(x)
    ensures r.Failure? ==> r.error == UnknownTool(name)
  {
    if collection.Some? && FirstWhere(collection.value, NamedTool(name)).Some? then Success(Static(name))
    else
      match FirstWhere(t.tools, CalledAs(t.imports, name))
      case None => Failure(UnknownTool(name))
      case Some(k) => Success(Persisted(t.tools[k], Owner(t.imports, t.tools[k].importId).value))
  }

  /** `CallToolHandler`: missing parameters and an unset capability fail
      first; a persisted call is forwarded with the call's arguments. */
  function CallSpec(capability: Option<ToolsCapability>, params: Option<CallParams>, t: Tables, codec: Codec,
                    send: HttpRequest -> string): Result<CallResult> {
    if params.None? || capability.None? then Failure(Missing)
    else
      var target :- DispatchSpec(capability.value.toolCollection, t, params.value.name);
      match target
      case Static(name) => Success(StaticCall(name))
      case Persisted(tool, owner) =>
        var text :- Forward(tool, owner, params.value.arguments.GetOr([]), codec, send);
        Success(TextContent(text))
  }

  class McpToolsKeeper {
    var capability: Option<ToolsCapability>

    /** A keeper before `SetTools`. */
    constructor ()
      ensures capability == None
    {
      capability := None;
    }

    /** `SetTools`. */
    method SetTools(tools: ToolsCapability)
      modifies this
      ensures capability == Some(tools)
    {
      capability := Some(tools);
    }

    /** `ListToolsHandler`, filling the result list tool by tool. */
    method ListTools(t: Tables, codec: Codec) returns (r: Result<seq<ProtocolTool>>)
      ensures r == ListSpec(capability, t, codec)
    {
      if capability.None? {
        return Failure(Missing);
      }
      var imported :- EnabledImportTools(t, codec);
      r := Success(capability.value.toolCollection.GetOr([]) + imported);
    }

    /** `CallToolHandler`. */
    method CallTool(params: Option<CallParams>, t: Tables, codec: Codec, send: HttpRequest -> string)
      returns (r: Result<CallResult>)
      ensures r == CallSpec(capability, params, t, codec, send)
    {
      if params.None? || capability.None? {
        return Failure(Missing);
      }
      var target :- DispatchSpec(capability.value.toolCollection, t, params.value.name);
      if target.Static? {
        return Success(StaticCall(target.name));
      }
      var text :- ForwardCall(target.tool, target.owner, params.value.arguments.GetOr([]), codec, send);
      r := Success(TextContent(text));
    }
  }

  /** The tools of the enabled imports, import by import. */
  method EnabledImportTools(t: Tables, codec: Codec) returns (r: Result<seq<ProtocolTool>>)
    ensures r == SelectMany(Filter(t.imports, IsEnabled()), ImportTools(t.tools, codec))
  {
    var enabled := Filter(t.imports, IsEnabled());
    var done := [];
    for i := 0 to |enabled|
      invariant SelectMany(enabled[..i], ImportTools(t.tools, codec)) == Success(done)
    {
      var mine := ImportToolsOf(enabled[i], t.tools, codec);
      SelectManyStep(enabled, ImportTools(t.tools, codec), i, done);
      if mine.Failure? {
        SelectManyPrefixFails(enabled, ImportTools(t.tools, codec), i + 1);
        return Failure(mine.error);
      }
      done := done + mine.value;
    }
    assert enabled[..|enabled|] == enabled;
    r := Success(done);
  }

  /** One import's announced tools, converted row by row. */
  method ImportToolsOf(owner: Import, tools: seq<McpTool>, codec: Codec) returns (r: Result<seq<ProtocolTool>>)
    ensures r == ImportTools(tools, codec)(owner)
  {
    var rows := Filter(tools, BelongsTo(owner.id));
    var announced := [];
    for j := 0 to |rows|
      invariant SelectMany(rows[..j], Announce(owner, codec)) == Success(announced)
    {
      var p := ToProtocolTool(rows[j], owner, codec);
      SelectManyStep(rows, Announce(owner, codec), j, announced);
      if p.Failure? {
        SelectManyPrefixFails(rows, Announce(owner, codec), j + 1);
        return Failure(p.error);
      }
      announced := announced + [p.value];
    }
    assert rows[..|rows|] == rows;
    r := Success(announced);
  }

  // ---------------------------------------------------------------------------
  // Properties of the listing.

  /** An import's part of the listing holds each of its rows, converted. */
  lemma ImportPartHoldsRow(tools: seq<McpTool>, owner: Import, codec: Codec, j: nat)
    requires ImportTools(tools, codec)(owner).Success?
    requires j < |tools| && tools[j].importId == owner.id
    ensures ToProtocolTool(tools[j], owner, codec).Success?
    ensures ToProtocolTool(tools[j], owner, codec).value in ImportTools(tools, codec)(owner).value
  {
    var rows := Filter(tools, BelongsTo(owner.id));
    FilterMembers(tools, BelongsTo(owner.id));
    assert tools[j] in rows;
    var m :| 0 <= m < |rows| && rows[m] == tools[j];
    SelectManyPart(rows, Announce(owner, codec), m, ProtocolTool("", "", Null, true));
    var p := ToProtocolTool(tools[j], owner, codec).value;
    SelectManyPart(rows, Announce(owner, codec), m, p);
  }

  /** Every tool of an enabled import is announced, under `<import>_<tool>`. */
  lemma EnabledImportToolsListed(capability: Option<ToolsCapability>, t: Tables, codec: Codec, i: nat, j: nat)
    requires ListSpec(capability, t, codec).Success?
    requires i < |t.imports| && t.imports[i].enabled
    requires j < |t.tools| && t.tools[j].importId == t.imports[i].id
    ensures ToProtocolTool(t.tools[j], t.imports[i], codec).Success?
    ensures ToProtocolTool(t.tools[j], t.imports[i], codec).value in ListSpec(capability, t, codec).value
    ensures ToProtocolTool(t.tools[j], t.imports[i], codec).value.name == ExposedName(t.imports[i].name, t.tools[j].name)
  {
    var owner := t.imports[i];
    var enabled := Filter(t.imports, IsEnabled());
    var parts := ImportTools(t.tools, codec);
    FilterMembers(t.imports, IsEnabled());
    assert owner in enabled;
    var k :| 0 <= k < |enabled| && enabled[k] == owner;
    SelectManyPart(enabled, parts, k, ProtocolTool("", "", Null, true));
    ImportPartHoldsRow(t.tools, owner, codec, j);
    var p := ToProtocolTool(t.tools[j], owner, codec).value;
    SelectManyPart(enabled, parts, k, p);
  }

  /** Two tool tables that differ at most in the rows' enabled flags. */
  predicate SameButFlags(xs: seq<McpTool>, ys: seq<McpTool>) {
    |xs| == |ys| && forall k :: 0 <= k < |xs| ==> ys[k] == xs[k].(enabled := ys[k].enabled)
  }

  lemma {:induction false} FilterSameButFlags(xs: seq<McpTool>, ys: seq<McpTool>, importId: int)
    requires SameButFlags(xs, ys)
    ensures SameButFlags(Filter(xs, BelongsTo(importId)), Filter(ys, BelongsTo(importId)))
  {
    if xs != [] {
      FilterSameButFlags(xs[1..], ys[1..], importId);
    }
  }

  /** A tool's own Enabled flag is never consulted: flipping any of them
      leaves the listing as it is. */
  lemma ToolFlagsIgnored(capability: Option<ToolsCapability>, t: Tables, tools: seq<McpTool>, codec: Codec)
    requires SameButFlags(t.tools, tools)
    ensures ListSpec(capability, t.(tools := tools), codec) == ListSpec(capability, t, codec)
  {
    var enabled := Filter(t.imports, IsEnabled());
    forall k | 0 <= k < |enabled|
      ensures ImportTools(t.tools, codec)(enabled[k]) == ImportTools(tools, codec)(enabled[k])
    {
      var owner := enabled[k];
      var xs := Filter(t.tools, BelongsTo(owner.id));
      var ys := Filter(tools, BelongsTo(owner.id));
      FilterSameButFlags(t.tools, tools, owner.id);
      SelectManyCongruent(xs, Announce(owner, codec), ys, Announce(owner, codec));
    }
    SelectManyCongruent(enabled, ImportTools(t.tools, codec), enabled, ImportTools(tools, codec));
  }

  /** The tools of a disabled import are not announced: dropping them leaves
      the listing as it is. */
  lemma DisabledImportHidden(capability: Option<ToolsCapability>, t: Tables, codec: Codec, i: nat)
    requires Consistent(t) && i < |t.imports| && !t.imports[i].enabled
    ensures var id := t.imports[i].id;
      ListSpec(capability, t.(tools := Filter(t.tools, OutsideOf(id))), codec) == ListSpec(capability, t, codec)
  {
    var id := t.imports[i].id;
    var kept := Filter(t.tools, OutsideOf(id));
    var enabled := Filter(t.imports, IsEnabled());
    FilterMembers(t.imports, IsEnabled());
    forall k | 0 <= k < |enabled|
      ensures ImportTools(kept, codec)(enabled[k]) == ImportTools(t.tools, codec)(enabled[k])
    {
      var owner := enabled[k];
      assert owner in enabled;
      var n :| 0 <= n < |t.imports| && t.imports[n] == owner;
      assert n != i;
      assert n < i ==> ImportIdBefore(t.imports[n], t.imports[i]);
      assert i < n ==> ImportIdBefore(t.imports[i], t.imports[n]);
      FilterFilter(t.tools, OutsideOf(id), BelongsTo(owner.id));
    }
    SelectManyCongruent(enabled, ImportTools(kept, codec), enabled, ImportTools(t.tools, codec));
  }

  // ---------------------------------------------------------------------------
  // Properties of a call.

  /** A call that reaches a stored tool is forwarded with the call's
      arguments, and answers the response body. */
  lemma PersistedCallForwards(capability: Option<ToolsCapability>, params: Option<CallParams>, t: Tables, codec: Codec,
                              send: HttpRequest -> string, tool: McpTool, owner: Import)
    requires params.Some? && capability.Some?
    requires DispatchSpec(capability.value.toolCollection, t, params.value.name) == Success(Persisted(tool, owner))
    ensures var forwarded := Forward(tool, owner, params.value.arguments.GetOr([]), codec, send);
      CallSpec(capability, params, t, codec, send) ==
        if forwarded.Success? then Success(TextContent(forwarded.value)) else Failure(forwarded.error)
  {
  }

  /** An announced tool of an enabled import can be called by its announced
      name unless a static tool has that name; the call reaches a stored row
      announced under the same name. */
  lemma ListedToolIsCallable(t: Tables, collection: Option<seq<ProtocolTool>>, i: nat, j: nat)
    requires i < |t.imports| && j < |t.tools| && t.tools[j].importId == t.imports[i].id
    requires collection.None? || forall p :: p in collection.value ==> p.name != ExposedName(t.imports[i].name, t.tools[j].name)
    requires Consistent(t)
    ensures DispatchSpec(collection, t, ExposedName(t.imports[i].name, t.tools[j].name)).Success?
    ensures DispatchSpec(collection, t, ExposedName(t.imports[i].name, t.tools[j].name)).value.Persisted?
  {
    var name := ExposedName(t.imports[i].name, t.tools[j].name);
    ImportIdRow(t, i);
    assert Owner(t.imports, t.tools[j].importId) == Some(t.imports[i]);
    assert t.tools[j] in t.tools && CalledAs(t.imports, name)(t.tools[j]);
  }
}
