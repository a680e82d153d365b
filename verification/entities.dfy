/** The two persisted entities, the request and query records around them,
    and the field-copy functions between them (Database/Entities/Import.cs,
    Database/Entities/McpTool.cs, Services/ModelExtensions.cs). Instants are
    plain integers; `MinDate` is `default(DateTime)`. */
module Entities {
  import opened Base

  const MinDate: int := 0

  /** One imported specification. */
  datatype Import = Import(
    id: int,
    name: string,
    importFrom: Option<string>,
    sourceBaseUrl: string,
    description: Option<string>,
    json: Option<string>,
    enabled: bool,
    createdAt: int,
    updatedAt: int)

  /** One declarative tool; `name` may be absent in memory even though its
      column is NOT NULL. */
  datatype McpTool = McpTool(
    id: int,
    importId: int,
    httpMethod: string,
    requestPath: string,
    name: Option<string>,
    description: string,
    inputSchema: string,
    enabled: bool,
    createdAt: int,
    updatedAt: int)

  datatype CreateImportRequest = CreateImportRequest(
    name: string,
    importFrom: Option<string>,
    sourceBaseUrl: string,
    description: Option<string>,
    json: Option<string>,
    enabled: bool)

  datatype UpdateImportRequest = UpdateImportRequest(
    id: int,
    name: string,
    importFrom: Option<string>,
    sourceBaseUrl: string,
    description: Option<string>,
    json: Option<string>,
    enabled: bool)

  datatype CreateToolRequest = CreateToolRequest(
    importId: int,
    httpMethod: string,
    requestPath: string,
    name: Option<string>,
    description: string,
    inputSchema: string)

  /** A single-tool upsert: a plain create request, or an update request that
      names its row and carries an Enabled flag. */
  datatype ToolRequest =
    | Create(fields: CreateToolRequest)
    | Update(id: int, enabled: bool, fields: CreateToolRequest)

  datatype ImportDto = ImportDto(
    id: int,
    name: string,
    importFrom: Option<string>,
    sourceBaseUrl: string,
    description: Option<string>,
    json: Option<string>,
    enabled: bool,
    createdAt: int,
    updatedAt: int)

  datatype ToolDto = ToolDto(
    id: int,
    importId: int,
    name: Option<string>,
    httpMethod: string,
    requestPath: string,
    description: string,
    inputSchema: string,
    enabled: bool,
    createdAt: int,
    updatedAt: int)

  // ---------------------------------------------------------------------------
  // Constraints declared on the entities.

  /** `[Required][MinLength(1)][MaxLength(5)]` on Import.Name (also validated on requests). */
  predicate ValidImportName(name: string) {
    1 <= |name| <= 5
  }

  /** Two import rows may share the table: the unique indexes on Name and,
      among non-null values, on ImportFrom. */
  predicate ImportsCompatible(a: Import, b: Import) {
    a.name != b.name && (a.importFrom.Some? ==> a.importFrom != b.importFrom)
  }

  predicate ImportIndexesHold(imports: seq<Import>) {
    Pairwise(imports, ImportsCompatible)
  }

  /** Every import's name satisfies the declared length bounds. */
  predicate ImportNamesValid(imports: seq<Import>) {
    forall x :: x in imports ==> ValidImportName(x.name)
  }

  /** Two tool rows may share the table: the unique indexes on Name and on
      (HttpMethod, RequestPath). */
  predicate ToolsCompatible(a: McpTool, b: McpTool) {
    a.name != b.name && (a.httpMethod, a.requestPath) != (b.httpMethod, b.requestPath)
  }

  /** The NOT NULL name column and the two unique indexes of the tool table. */
  predicate ToolIndexesHold(tools: seq<McpTool>) {
    (forall x :: x in tools ==> x.name.Some?) && Pairwise(tools, ToolsCompatible)
  }

  predicate HasImport(imports: seq<Import>, id: int) {
    exists x :: x in imports && x.id == id
  }

  /** The foreign key McpTool.ImportId -> Import.Id. */
  predicate ToolsReferenceImports(tools: seq<McpTool>, imports: seq<Import>) {
    forall x :: x in tools ==> HasImport(imports, x.importId)
  }

  /** Everything the database itself refuses to commit. */
  predicate DbConstraints(imports: seq<Import>, tools: seq<McpTool>) {
    ImportIndexesHold(imports) && ToolIndexesHold(tools) && ToolsReferenceImports(tools, imports)
  }

  // ---------------------------------------------------------------------------
  // ModelExtensions.

  /** `ToImport`: a new row; the request's Enabled flag is ignored. The
      identity and both timestamps are given by the store and the clock. */
  function ToImport(request: CreateImportRequest, id: int, now: int): (r: Import)
    ensures r.id == id
    ensures r.name == request.name && r.importFrom == request.importFrom
    ensures r.sourceBaseUrl == request.sourceBaseUrl && r.description == request.description
    ensures r.json == request.json
    ensures r.enabled
    ensures r.createdAt == r.updatedAt == now
  {
    Import(id, request.name, request.importFrom, request.sourceBaseUrl,
           request.description, request.json, true, now, now)
  }

  /** The update request an import-by-name hands to the shared update path. */
  function ToUpdate(request: CreateImportRequest, id: int): (r: UpdateImportRequest)
    ensures r.id == id
    ensures r.name == request.name && r.importFrom == request.importFrom
    ensures r.sourceBaseUrl == request.sourceBaseUrl && r.description == request.description
    ensures r.json == request.json && r.enabled == request.enabled
  {
    UpdateImportRequest(id, request.name, request.importFrom, request.sourceBaseUrl,
                        request.description, request.json, request.enabled)
  }

  /** The query record of a row: every column, unchanged. */
  function ImportToDto(row: Import): (r: ImportDto)
    ensures r.id == row.id && r.name == row.name && r.importFrom == row.importFrom
    ensures r.sourceBaseUrl == row.sourceBaseUrl && r.description == row.description
    ensures r.json == row.json && r.enabled == row.enabled
    ensures r.createdAt == row.createdAt && r.updatedAt == row.updatedAt
  {
    ImportDto(row.id, row.name, row.importFrom, row.sourceBaseUrl,
              row.description, row.json, row.enabled, row.createdAt, row.updatedAt)
  }

  /** `Update(Import)`: the six editable fields and UpdatedAt. */
  function UpdateImport(row: Import, request: UpdateImportRequest, now: int): (r: Import)
    ensures r.id == row.id && r.createdAt == row.createdAt
    ensures r.name == request.name && r.importFrom == request.importFrom
    ensures r.sourceBaseUrl == request.sourceBaseUrl && r.description == request.description
    ensures r.json == request.json && r.enabled == request.enabled
    ensures r.updatedAt == now
  {
    row.(name := request.name, importFrom := request.importFrom,
            sourceBaseUrl := request.sourceBaseUrl, description := request.description,
            json := request.json, enabled := request.enabled, updatedAt := now)
  }

  /** `ToTool`: a new, enabled row; Name is passed through even when absent.
      The identity and CreatedAt are generated by the store on insert;
      UpdatedAt keeps its default. */
  function ToTool(request: CreateToolRequest, id: int, now: int): (r: McpTool)
    ensures r.id == id && r.importId == request.importId
    ensures r.httpMethod == request.httpMethod && r.requestPath == request.requestPath
    ensures r.name == request.name
    ensures r.description == request.description && r.inputSchema == request.inputSchema
    ensures r.enabled
    ensures r.createdAt == now && r.updatedAt == MinDate
  {
    McpTool(id, request.importId, request.httpMethod, request.requestPath, request.name,
            request.description, request.inputSchema, true, now, MinDate)
  }

  /** The query record of a tool: every column, unchanged. */
  function ToolToDto(tool: McpTool): (r: ToolDto)
    ensures r.id == tool.id && r.importId == tool.importId && r.name == tool.name
    ensures r.httpMethod == tool.httpMethod && r.requestPath == tool.requestPath
    ensures r.description == tool.description && r.inputSchema == tool.inputSchema
    ensures r.enabled == tool.enabled
    ensures r.createdAt == tool.createdAt && r.updatedAt == tool.updatedAt
  {
    ToolDto(tool.id, tool.importId, tool.name, tool.httpMethod, tool.requestPath,
            tool.description, tool.inputSchema, tool.enabled, tool.createdAt, tool.updatedAt)
  }

  /** `Update(McpTool)`: every request field, the given Enabled flag and UpdatedAt. */
  function UpdateTool(tool: McpTool, request: CreateToolRequest, enabled: bool, now: int): (r: McpTool)
    ensures r.id == tool.id && r.createdAt == tool.createdAt
    ensures r.importId == request.importId
    ensures r.httpMethod == request.httpMethod && r.requestPath == request.requestPath
    ensures r.name == request.name
    ensures r.description == request.description && r.inputSchema == request.inputSchema
    ensures r.enabled == enabled && r.updatedAt == now
  {
    tool.(name := request.name, httpMethod := request.httpMethod, requestPath := request.requestPath,
          description := request.description, inputSchema := request.inputSchema,
          enabled := enabled, importId := request.importId, updatedAt := now)
  }

  // ---------------------------------------------------------------------------
  // Properties of the mappings.

  /** A created import is enabled whatever the request says. */
  lemma ToImportIgnoresEnabled(request: CreateImportRequest, id: int, now: int)
    ensures ToImport(request.(enabled := !request.enabled), id, now) == ToImport(request, id, now)
  {
  }

  /** After an update the query record shows exactly the request's fields,
      the old identity and creation instant, and the update instant. */
  lemma UpdateImportShowsRequest(row: Import, request: UpdateImportRequest, now: int)
    ensures var d := ImportToDto(UpdateImport(row, request, now));
      && d.id == row.id && d.createdAt == row.createdAt && d.updatedAt == now
      && d.name == request.name && d.importFrom == request.importFrom
      && d.sourceBaseUrl == request.sourceBaseUrl && d.description == request.description
      && d.json == request.json && d.enabled == request.enabled
  {
  }

  /** The query records lose nothing: different rows give different records. */
  lemma ImportToDtoInjective(a: Import, b: Import)
    requires ImportToDto(a) == ImportToDto(b)
    ensures a == b
  {
  }

  lemma ToolToDtoInjective(a: McpTool, b: McpTool)
    requires ToolToDto(a) == ToolToDto(b)
    ensures a == b
  {
  }

  /** Updating a row from a request gives the row a fresh insert of that
      request would give, except for the identity, CreatedAt, UpdatedAt and
      the Enabled flag passed in. */
  lemma UpdateToolMatchesToTool(tool: McpTool, request: CreateToolRequest, now: int)
    ensures UpdateTool(tool, request, true, now) ==
            ToTool(request, tool.id, tool.createdAt).(updatedAt := now)
  {
  }
}
