/**
 * The protocol records of pkg/types/types.go, the default toolset table, the
 * backing OLM client seen as an oracle, and the fields of the OLM objects
 * that the handlers read.
 */
module Types {
  import opened Wrappers

  /** A JSON value as encoding/json decodes it into an `interface{}`. */
  datatype Value =
    | Null
    | Bool(b: bool)
    | Number(n: real)
    | Str(s: string)
    | Array(elems: seq<Value>)
    | Object(fields: map<string, Value>)

  /**
   * MCPRequest. An omitted `id` is None; omitted `params` decode to a nil map,
   * which reads like the empty map.
   */
  datatype MCPRequest = MCPRequest(jsonrpc: string, id: Option<Value>, methodName: string, params: map<string, Value>)

  /** MCPError; `data` is omitted from the encoding when None. */
  datatype MCPError = MCPError(code: int, message: string, data: Option<string>)

  /** MCPContent: one `{type, text}` block. */
  datatype MCPContent = MCPContent(contentType: string, text: string)

  /** MCPToolResult; `isError` is omitted from the encoding when false. */
  datatype ToolResult = ToolResult(content: seq<MCPContent>, isError: bool)

  /** One declared property of a tool's input schema. */
  datatype Property = Property(name: string, propertyType: string, description: string)

  /** A tool's `inputSchema`; an empty `required` stands for the key being absent. */
  datatype InputSchema = InputSchema(schemaType: string, properties: seq<Property>, required: seq<string>)

  /** MCPTool. */
  datatype MCPTool = MCPTool(name: string, description: string, inputSchema: InputSchema)

  /** What the `result` of a stdio response carries. */
  datatype Payload =
    | InitializeResult(protocolVersion: string, toolsCapability: map<string, Value>, serverName: string, serverVersion: string)
    | ToolsListResult(tools: seq<MCPTool>)
    | ToolCallResult(toolResult: ToolResult)

  /** MCPResponse; `id`, `result` and `error` are each omitted from the encoding when None. */
  datatype MCPResponse = MCPResponse(jsonrpc: string, id: Option<Value>, result: Option<Payload>, error: Option<MCPError>)

  /** The envelope invariant every response keeps: version "2.0" and exactly one of result and error. */
  predicate WellFormed(r: MCPResponse)
  {
    r.jsonrpc == "2.0" && (r.result.Some? <==> r.error.None?)
  }

  /** ToolConfig. */
  datatype ToolConfig = ToolConfig(name: string, description: string, enabled: bool)

  /** DefaultToolsets: two tools per resource kind, all enabled. */
  const DefaultToolsets: map<string, seq<ToolConfig>> := map[
    "csv" := [
      ToolConfig("list_csvs", "List ClusterServiceVersions", true),
      ToolConfig("get_csv", "Get ClusterServiceVersion details", true)],
    "subscription" := [
      ToolConfig("list_subscriptions", "List Subscriptions", true),
      ToolConfig("get_subscription", "Get Subscription details", true)],
    "catalog" := [
      ToolConfig("list_catalog_sources", "List CatalogSources", true),
      ToolConfig("get_catalog_source", "Get CatalogSource details", true)],
    "installplan" := [
      ToolConfig("list_install_plans", "List InstallPlans", true),
      ToolConfig("get_install_plan", "Get InstallPlan details", true)]
  ]

  /** The names of all default tools. */
  function DefaultToolNames(): set<string>
  {
    set k, i | k in DefaultToolsets && 0 <= i < |DefaultToolsets[k]| :: DefaultToolsets[k][i].name
  }

  /** The table has exactly the four resource kinds, each with two enabled tools. */
  lemma DefaultToolsetsShape()
    ensures DefaultToolsets.Keys == {"csv", "subscription", "catalog", "installplan"}
    ensures forall k :: k in DefaultToolsets ==> |DefaultToolsets[k]| == 2
    ensures forall k, i :: k in DefaultToolsets && 0 <= i < |DefaultToolsets[k]| ==> DefaultToolsets[k][i].enabled
  {
  }

  /** No two entries of the table share a name. */
  lemma DefaultToolNamesDistinct()
    ensures forall k, i, k', i' ::
      (&& k in DefaultToolsets && 0 <= i < |DefaultToolsets[k]|
       && k' in DefaultToolsets && 0 <= i' < |DefaultToolsets[k']|
       && DefaultToolsets[k][i].name == DefaultToolsets[k'][i'].name)
      ==> k == k' && i == i'
  {
    DefaultToolsetsShape();
  }

  /** The eight default tool names. */
  lemma DefaultToolNamesAre()
    ensures DefaultToolNames() == {
      "list_csvs", "get_csv", "list_subscriptions", "get_subscription",
      "list_catalog_sources", "get_catalog_source", "list_install_plans", "get_install_plan"}
  {
    DefaultToolsetsShape();
    var names := DefaultToolNames();
    assert DefaultToolsets["csv"][0].name in names;
    assert DefaultToolsets["csv"][1].name in names;
    assert DefaultToolsets["subscription"][0].name in names;
    assert DefaultToolsets["subscription"][1].name in names;
    assert DefaultToolsets["catalog"][0].name in names;
    assert DefaultToolsets["catalog"][1].name in names;
    assert DefaultToolsets["installplan"][0].name in names;
    assert DefaultToolsets["installplan"][1].name in names;
  }

  // ---- The OLM objects, reduced to the fields the handlers read ----

  /** The outcome of json.MarshalIndent on a fetched object. */
  datatype Marshalled = Json(text: string) | MarshalError(err: string)

  /** A ClusterServiceVersion. `version` is Spec.Version.String(), `replacesCsv` is Spec.Replaces. */
  datatype Csv = Csv(
    name: string, namespace: string, phase: string, version: string, replacesCsv: string,
    displayName: string, description: string, json: Marshalled)

  /** A Subscription. */
  datatype Subscription = Subscription(
    name: string, namespace: string, package: string, channel: string, catalogSource: string,
    catalogSourceNamespace: string, installedCsv: string, currentCsv: string, json: Marshalled)

  /** Status.GRPCConnectionState; a zero LastConnectTime is None, any other its String(). */
  datatype ConnectionState = ConnectionState(lastObservedState: string, lastConnectTime: Option<string>)

  /** A CatalogSource. `connection` is None when the status carries no connection state. */
  datatype CatalogSource = CatalogSource(
    name: string, namespace: string, sourceType: string, displayName: string, publisher: string,
    image: string, address: string, connection: Option<ConnectionState>, json: Marshalled)

  /** One step of an InstallPlan's Status.Plan. */
  datatype Step = Step(kind: string, name: string, manifest: string, status: string)

  /** An InstallPlan. */
  datatype InstallPlan = InstallPlan(
    name: string, namespace: string, approval: string, approved: bool, phase: string,
    csvNames: seq<string>, plan: seq<Step>, json: Marshalled)

  /**
   * OLMClientInterface: four list operations taking a namespace and four get
   * operations taking a namespace and a name, each answering records or an error.
   */
  datatype OlmClient = OlmClient(
    listCsvs: string -> Result<seq<Csv>>,
    getCsv: (string, string) -> Result<Csv>,
    listSubscriptions: string -> Result<seq<Subscription>>,
    getSubscription: (string, string) -> Result<Subscription>,
    listCatalogSources: string -> Result<seq<CatalogSource>>,
    getCatalogSource: (string, string) -> Result<CatalogSource>,
    listInstallPlans: string -> Result<seq<InstallPlan>>,
    getInstallPlan: (string, string) -> Result<InstallPlan>)

  /**
   * encoding/json as the two transports use it. Decoding a line (json.Unmarshal)
   * and a body (json.Decoder.Decode) may differ, so each is its own oracle.
   */
  datatype JsonCodec = JsonCodec(
    decodeLine: string -> Result<MCPRequest>,
    decodeBody: string -> Result<MCPRequest>,
    encodeResponse: MCPResponse -> Result<string>,
    encodeToolResult: ToolResult -> Result<string>)
}
