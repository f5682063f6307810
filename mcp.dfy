/**
 * pkg/server/mcp.go: the JSON-RPC 2.0 dispatcher behind the stdio transport.
 * Error codes are those of section 5.1 of the JSON-RPC 2.0 specification.
 */
module StdioServer {
  import opened Wrappers
  import opened Types
  import opened Text
  import opened Handlers

  const PARSE_ERROR: int := -32700
  const METHOD_NOT_FOUND: int := -32601
  const INVALID_PARAMS: int := -32602
  const INTERNAL_ERROR: int := -32603

  const PROTOCOL_VERSION := "2025-06-18"
  const SERVER_NAME := "olmv0-mcp-server"
  const SERVER_VERSION := "1.0.0"

  /** A response carrying an error object. */
  function ErrorResponse(id: Option<Value>, code: int, message: string, data: Option<string>): (r: MCPResponse)
    ensures WellFormed(r) && r.id == id
  {
    MCPResponse("2.0", id, None, Some(MCPError(code, message, data)))
  }

  /** A response carrying a result. */
  function ResultResponse(id: Option<Value>, payload: Payload): (r: MCPResponse)
    ensures WellFormed(r) && r.id == id
  {
    MCPResponse("2.0", id, Some(payload), None)
  }

  // ---- initialize and tools/list ----

  function Initialize(req: MCPRequest): MCPResponse
  {
    ResultResponse(req.id, InitializeResult(PROTOCOL_VERSION, map[], SERVER_NAME, SERVER_VERSION))
  }

  const NAMESPACE_DESCRIPTION := "Kubernetes namespace (default: "
  const NAME_DESCRIPTION := "Name of the "

  function NamespaceProperty(defaultNamespace: string): Property
  {
    Property("namespace", "string", NAMESPACE_DESCRIPTION + defaultNamespace + ")")
  }

  function NameProperty(kind: string): Property
  {
    Property("name", "string", NAME_DESCRIPTION + kind)
  }

  /** What tools/list says each tool does. */
  const LIST_CSVS_DESCRIPTION := "List ClusterServiceVersions in a namespace"
  const GET_CSV_DESCRIPTION := "Get detailed information about a specific ClusterServiceVersion"
  const LIST_SUBSCRIPTIONS_DESCRIPTION := "List Subscriptions in a namespace"
  const GET_SUBSCRIPTION_DESCRIPTION := "Get detailed information about a specific Subscription"
  const LIST_CATALOG_SOURCES_DESCRIPTION := "List CatalogSources in a namespace"
  const GET_CATALOG_SOURCE_DESCRIPTION := "Get detailed information about a specific CatalogSource"
  const LIST_INSTALL_PLANS_DESCRIPTION := "List InstallPlans in a namespace"
  const GET_INSTALL_PLAN_DESCRIPTION := "Get detailed information about a specific InstallPlan"

  /** The registry entry of one tool, as handleToolsList writes it out. */
  function Advertised(t: Tool): MCPTool
  {
    match t
    case ListCsvs =>
      MCPTool("list_csvs", LIST_CSVS_DESCRIPTION,
        InputSchema("object", [NamespaceProperty("default")], []))
    case GetCsv =>
      MCPTool("get_csv", GET_CSV_DESCRIPTION,
        InputSchema("object", [NameProperty("ClusterServiceVersion"), NamespaceProperty("default")], ["name"]))
    case ListSubscriptions =>
      MCPTool("list_subscriptions", LIST_SUBSCRIPTIONS_DESCRIPTION,
        InputSchema("object", [NamespaceProperty("default")], []))
    case GetSubscription =>
      MCPTool("get_subscription", GET_SUBSCRIPTION_DESCRIPTION,
        InputSchema("object", [NameProperty("Subscription"), NamespaceProperty("default")], ["name"]))
    case ListCatalogSources =>
      MCPTool("list_catalog_sources", LIST_CATALOG_SOURCES_DESCRIPTION,
        InputSchema("object", [NamespaceProperty("olm")], []))
    case GetCatalogSource =>
      MCPTool("get_catalog_source", GET_CATALOG_SOURCE_DESCRIPTION,
        InputSchema("object", [NameProperty("CatalogSource"), NamespaceProperty("olm")], ["name"]))
    case ListInstallPlans =>
      MCPTool("list_install_plans", LIST_INSTALL_PLANS_DESCRIPTION,
        InputSchema("object", [NamespaceProperty("default")], []))
    case GetInstallPlan =>
      MCPTool("get_install_plan", GET_INSTALL_PLAN_DESCRIPTION,
        InputSchema("object", [NameProperty("InstallPlan"), NamespaceProperty("default")], ["name"]))
  }

  /**
   * The registry agrees with the handlers: each entry carries the tool's
   * routed name, declares `name` required exactly for the get_* tools, and
   * advertises as its namespace default the namespace the handler falls back to.
   */
  lemma AdvertisedAgreesWithHandlers(t: Tool)
    ensures Advertised(t).name == Name(t)
    ensures Advertised(t).inputSchema.required == (if IsGet(t) then ["name"] else [])
    ensures var props := Advertised(t).inputSchema.properties;
      && |props| == (if IsGet(t) then 2 else 1)
      && props[|props| - 1] == NamespaceProperty(DefaultNamespace(t))
      && (IsGet(t) ==> props[0].name == "name")
  {
  }

  /** The eight registry entries, in the order handleToolsList lists them. */
  function ToolsList(): (tools: seq<MCPTool>)
    ensures |tools| == |AllTools|
    ensures forall i :: 0 <= i < |tools| ==> tools[i] == Advertised(AllTools[i])
  {
    [ Advertised(ListCsvs), Advertised(GetCsv),
      Advertised(ListSubscriptions), Advertised(GetSubscription),
      Advertised(ListCatalogSources), Advertised(GetCatalogSource),
      Advertised(ListInstallPlans), Advertised(GetInstallPlan) ]
  }

  /** tools/list advertises every tool under its routed name, in registry order, each once. */
  lemma ToolsListRoutes()
    ensures forall i :: 0 <= i < |ToolsList()| ==> ToolFor(ToolsList()[i].name) == Some(AllTools[i])
    ensures forall i, j :: 0 <= i < j < |ToolsList()| ==> ToolsList()[i].name != ToolsList()[j].name
  {
    var tools := ToolsList();
    forall i | 0 <= i < |tools|
      ensures ToolFor(tools[i].name) == Some(AllTools[i])
    {
      AdvertisedAgreesWithHandlers(AllTools[i]);
      ToolForName(AllTools[i]);
    }
    AllToolsDistinct();
  }

  /** The names tools/list advertises are exactly the names of the default toolset table. */
  lemma ToolsListNames()
    ensures (set i | 0 <= i < |ToolsList()| :: ToolsList()[i].name) == DefaultToolNames()
  {
    var tools := ToolsList();
    ToolsListRoutes();
    RoutedNamesAreDefaultToolNames();
    AllToolsComplete();
    var fromList := set i | 0 <= i < |tools| :: tools[i].name;
    var fromTools := set t | t in AllTools :: Name(t);
    forall n | n in fromList
      ensures n in fromTools
    {
      var i :| 0 <= i < |tools| && tools[i].name == n;
      assert Name(AllTools[i]) == n;
    }
    forall n | n in fromTools
      ensures n in fromList
    {
      var t :| t in AllTools && Name(t) == n;
      var i :| 0 <= i < |AllTools| && AllTools[i] == t;
      assert tools[i].name == n;
    }
  }

  // ---- tools/call ----

  /** The string-valued entries of the call's arguments; every other entry is dropped. */
  function StringArguments(args: map<string, Value>): map<string, string>
  {
    map k | k in args && args[k].Str? :: args[k].s
  }

  /** The argument flattening loop: visit every key once, keep the strings. */
  method FlattenArguments(args: map<string, Value>) returns (stringParams: map<string, string>)
    ensures stringParams.Keys <= args.Keys
    ensures forall k :: k in args ==> (k in stringParams <==> args[k].Str?)
    ensures forall k :: k in stringParams ==> args[k] == Str(stringParams[k])
    ensures stringParams == StringArguments(args)
  {
    stringParams := map[];
    var remaining := args.Keys;
    while remaining != {}
      invariant remaining <= args.Keys
      invariant stringParams.Keys <= args.Keys - remaining
      invariant forall k :: k in args.Keys - remaining ==> (k in stringParams <==> args[k].Str?)
      invariant forall k :: k in stringParams ==> args[k] == Str(stringParams[k])
      decreases remaining
    {
      var k :| k in remaining;
      if args[k].Str? {
        stringParams := stringParams[k := args[k].s];
      }
      remaining := remaining - {k};
    }
    assert stringParams.Keys == StringArguments(args).Keys;
  }

  /** What handleToolCall answers, given what each handler answers. */
  function ToolCallResponse(tools: Toolset, req: MCPRequest): (r: MCPResponse)
    ensures WellFormed(r) && r.id == req.id
  {
    if "arguments" !in req.params || !req.params["arguments"].Object? then
      ErrorResponse(req.id, INVALID_PARAMS, "Invalid params", None)
    else if "name" !in req.params || !req.params["name"].Str? then
      ErrorResponse(req.id, INVALID_PARAMS, "Tool name required", None)
    else
      match ToolFor(req.params["name"].s)
      case None => ErrorResponse(req.id, METHOD_NOT_FOUND, "Unknown tool", None)
      case Some(t) =>
        match tools(t, StringArguments(req.params["arguments"].fields))
        case Err(e) => ErrorResponse(req.id, INTERNAL_ERROR, "Tool execution failed", Some(e))
        case Ok(result) => ResultResponse(req.id, ToolCallResult(result))
  }

  /** handleToolCall: check the arguments, then the name, flatten, run the tool. */
  method HandleToolCall(client: OlmClient, ghost tools: Toolset, req: MCPRequest) returns (r: MCPResponse)
    requires HandlersOf(client, tools)
    ensures r == ToolCallResponse(tools, req)
  {
    if "arguments" !in req.params || !req.params["arguments"].Object? {
      return ErrorResponse(req.id, INVALID_PARAMS, "Invalid params", None);
    }
    var params := req.params["arguments"].fields;
    if "name" !in req.params || !req.params["name"].Str? {
      return ErrorResponse(req.id, INVALID_PARAMS, "Tool name required", None);
    }
    var toolName := req.params["name"].s;
    var stringParams := FlattenArguments(params);
    var tool := ToolFor(toolName);
    if tool.None? {
      return ErrorResponse(req.id, METHOD_NOT_FOUND, "Unknown tool", None);
    }
    var result := Run(client, tools, tool.value, stringParams);
    if result.Err? {
      return ErrorResponse(req.id, INTERNAL_ERROR, "Tool execution failed", Some(result.error));
    }
    return ResultResponse(req.id, ToolCallResult(result.value));
  }

  /**
   * The checks of tools/call in order: a missing or non-object `arguments`
   * is "Invalid params" whatever `name` is; then a missing or non-string
   * `name` is "Tool name required"; then an unrouted name is "Unknown tool".
   * In all three cases no handler runs, so the answer is the same whatever
   * the handlers would have answered.
   */
  lemma ToolCallRejections(tools: Toolset, others: Toolset, req: MCPRequest)
    ensures var r := ToolCallResponse(tools, req);
      && ("arguments" !in req.params || !req.params["arguments"].Object? ==>
            r.error == Some(MCPError(INVALID_PARAMS, "Invalid params", None)))
      && ("arguments" in req.params && req.params["arguments"].Object? && ("name" !in req.params || !req.params["name"].Str?) ==>
            r.error == Some(MCPError(INVALID_PARAMS, "Tool name required", None)))
      && ("arguments" in req.params && req.params["arguments"].Object? && "name" in req.params && req.params["name"].Str? ==>
            (r.error == Some(MCPError(METHOD_NOT_FOUND, "Unknown tool", None)) <==> req.params["name"].s !in DefaultToolNames()))
      && (r.error.Some? && r.error.value.code != INTERNAL_ERROR ==> r == ToolCallResponse(others, req))
  {
    RoutedNamesAreDefaultToolNames();
    AllToolsComplete();
    if "arguments" in req.params && req.params["arguments"].Object? && "name" in req.params && req.params["name"].Str? {
      match ToolFor(req.params["name"].s)
      case None =>
      case Some(t) => assert Name(t) in DefaultToolNames();
    }
  }

  /**
   * A routed tool runs on exactly the string-valued arguments; its payload
   * is passed back unchanged as the result, and a Go error becomes "Tool
   * execution failed" carrying the error text.
   */
  lemma ToolCallPassesResult(tools: Toolset, req: MCPRequest, t: Tool)
    requires "arguments" in req.params && req.params["arguments"].Object?
    requires "name" in req.params && req.params["name"] == Str(Name(t))
    ensures var r := ToolCallResponse(tools, req);
      match tools(t, StringArguments(req.params["arguments"].fields))
      case Ok(p) => r.result == Some(ToolCallResult(p))
      case Err(e) => r.error == Some(MCPError(INTERNAL_ERROR, "Tool execution failed", Some(e)))
  {
    ToolForName(t);
  }

  /** With the handlers of pkg/tools, "Tool execution failed" is never answered. */
  lemma ToolCallNeverFailsExecution(client: OlmClient, tools: Toolset, req: MCPRequest)
    requires HandlersOf(client, tools)
    ensures var r := ToolCallResponse(tools, req);
      r.error.Some? ==> r.error.value.code != INTERNAL_ERROR
  {
    if "arguments" in req.params && req.params["arguments"].Object? && "name" in req.params && req.params["name"].Str? {
      match ToolFor(req.params["name"].s)
      case None =>
      case Some(t) => HandlersAnswerPayloads(client, tools, t, StringArguments(req.params["arguments"].fields));
    }
  }

  // ---- routing ----

  /** What handleRequest answers for a decoded request. */
  function Response(tools: Toolset, req: MCPRequest): (r: MCPResponse)
    ensures WellFormed(r) && r.id == req.id
  {
    match req.methodName
    case "initialize" => Initialize(req)
    case "tools/list" => ResultResponse(req.id, ToolsListResult(ToolsList()))
    case "tools/call" => ToolCallResponse(tools, req)
    case _ => ErrorResponse(req.id, METHOD_NOT_FOUND, "Method not found", None)
  }

  /** handleRequest: the method switch. */
  method HandleRequest(client: OlmClient, ghost tools: Toolset, req: MCPRequest) returns (r: MCPResponse)
    requires HandlersOf(client, tools)
    ensures r == Response(tools, req)
  {
    match req.methodName
    case "initialize" => r := Initialize(req);
    case "tools/list" => r := ResultResponse(req.id, ToolsListResult(ToolsList()));
    case "tools/call" => r := HandleToolCall(client, tools, req);
    case _ => r := ErrorResponse(req.id, METHOD_NOT_FOUND, "Method not found", None);
  }

  /**
   * Routing: initialize and tools/list answer fixed results, and every
   * method other than the three known ones is "Method not found".
   */
  lemma Routing(tools: Toolset, req: MCPRequest)
    ensures req.methodName == "initialize" ==>
      Response(tools, req).result == Some(InitializeResult("2025-06-18", map[], "olmv0-mcp-server", "1.0.0"))
    ensures req.methodName == "tools/list" ==>
      Response(tools, req).result == Some(ToolsListResult(ToolsList()))
    ensures (Response(tools, req).error == Some(MCPError(METHOD_NOT_FOUND, "Method not found", None)))
        <==> req.methodName !in {"initialize", "tools/list", "tools/call"}
  {
  }

  // ---- the line loop ----

  /** A line is skipped when nothing is left of it after trimming white space. */
  predicate Blank(line: string)
  {
    |TrimSpace(line)| == 0
  }

  /**
   * What is printed for a response. sendError ignores a marshalling failure
   * and prints the empty line.
   */
  function Emit(codec: JsonCodec, resp: MCPResponse): string
  {
    match codec.encodeResponse(resp)
    case Ok(text) => text
    case Err(_) => ""
  }

  /** The one line printed for a line that is not blank, given what handleRequest answers. */
  function Reply(codec: JsonCodec, respond: MCPRequest -> MCPResponse, line: string): string
  {
    match codec.decodeLine(line)
    case Err(e) => Emit(codec, ErrorResponse(None, PARSE_ERROR, "Parse error", Some(e)))
    case Ok(req) =>
      match codec.encodeResponse(respond(req))
      case Ok(text) => text
      case Err(e) => Emit(codec, ErrorResponse(req.id, INTERNAL_ERROR, "Internal error", Some(e)))
  }

  /** The lines printed for one input line. */
  function LineOutput(codec: JsonCodec, respond: MCPRequest -> MCPResponse, line: string): seq<string>
  {
    if Blank(line) then [] else [Reply(codec, respond, line)]
  }

  /** What a line-by-line loop prints for `lines`, when `each` is what it prints for one line. */
  function Outputs(each: string -> seq<string>, lines: seq<string>): seq<string>
  {
    if lines == [] then []
    else Outputs(each, lines[..|lines| - 1]) + each(lines[|lines| - 1])
  }

  /** Everything printed for a sequence of input lines. */
  function Transcript(codec: JsonCodec, respond: MCPRequest -> MCPResponse, lines: seq<string>): seq<string>
  {
    Outputs(line => LineOutput(codec, respond, line), lines)
  }

  /** Start: read lines until the input ends, printing what each produces. */
  method Start(codec: JsonCodec, client: OlmClient, ghost tools: Toolset, lines: seq<string>) returns (out: seq<string>)
    requires HandlersOf(client, tools)
    ensures out == Transcript(codec, req => Response(tools, req), lines)
  {
    ghost var respond := req => Response(tools, req);
    out := [];
    for n := 0 to |lines|
      invariant out == Transcript(codec, respond, lines[..n])
    {
      assert lines[..n + 1][..n] == lines[..n];
      var line := lines[n];
      if |TrimSpace(line)| == 0 {
        continue;
      }
      var req := codec.decodeLine(line);
      if req.Err? {
        out := out + [Emit(codec, ErrorResponse(None, PARSE_ERROR, "Parse error", Some(req.error)))];
        continue;
      }
      var response := HandleRequest(client, tools, req.value);
      var responseBytes := codec.encodeResponse(response);
      if responseBytes.Err? {
        out := out + [Emit(codec, ErrorResponse(req.value.id, INTERNAL_ERROR, "Internal error", Some(responseBytes.error)))];
        continue;
      }
      out := out + [responseBytes.value];
    }
    assert lines[..|lines|] == lines;
  }

  /** The input lines that are not blank, in order. */
  function NonBlank(lines: seq<string>): (kept: seq<string>)
    ensures |kept| <= |lines|
  {
    if lines == [] then []
    else NonBlank(lines[..|lines| - 1]) + (if Blank(lines[|lines| - 1]) then [] else [lines[|lines| - 1]])
  }

  /**
   * One output line per non-blank input line, in input order, each the reply
   * to that line alone: blank lines print nothing and a line that fails to
   * parse prints one reply and does not stop the loop.
   */
  lemma {:induction false} TranscriptIsReplies(codec: JsonCodec, respond: MCPRequest -> MCPResponse, lines: seq<string>)
    ensures |Transcript(codec, respond, lines)| == |NonBlank(lines)|
    ensures forall i :: 0 <= i < |NonBlank(lines)| ==>
      Transcript(codec, respond, lines)[i] == Reply(codec, respond, NonBlank(lines)[i])
  {
    if lines != [] {
      var init, last := lines[..|lines| - 1], lines[|lines| - 1];
      TranscriptIsReplies(codec, respond, init);
      var t, kept := Transcript(codec, respond, init), NonBlank(init);
      TranscriptLast(codec, respond, lines);
      if !Blank(last) {
        assert NonBlank(lines) == kept + [last];
        forall i | 0 <= i < |NonBlank(lines)|
          ensures Transcript(codec, respond, lines)[i] == Reply(codec, respond, NonBlank(lines)[i])
        {
          if i < |kept| {
            assert NonBlank(lines)[i] == kept[i];
          }
        }
      }
    }
  }

  /** Non-empty input prints what all lines but the last print, then what the last one prints. */
  lemma TranscriptLast(codec: JsonCodec, respond: MCPRequest -> MCPResponse, lines: seq<string>)
    requires lines != []
    ensures Transcript(codec, respond, lines)
         == Transcript(codec, respond, lines[..|lines| - 1]) + LineOutput(codec, respond, lines[|lines| - 1])
  {
  }

  /** One more input line adds exactly what that line prints. */
  lemma OutputsSnoc(each: string -> seq<string>, lines: seq<string>, line: string)
    ensures Outputs(each, lines + [line]) == Outputs(each, lines) + each(line)
  {
    var s := lines + [line];
    assert s[..|s| - 1] == lines;
  }

  /** The output for a concatenation is the concatenation of the outputs. */
  lemma {:induction false} OutputsAppend(each: string -> seq<string>, a: seq<string>, b: seq<string>)
    ensures Outputs(each, a + b) == Outputs(each, a) + Outputs(each, b)
    decreases |b|
  {
    if b == [] {
      assert a + b == a;
    } else {
      var init, last := b[..|b| - 1], b[|b| - 1];
      assert b == init + [last];
      assert a + b == (a + init) + [last];
      OutputsSnoc(each, a + init, last);
      OutputsSnoc(each, init, last);
      OutputsAppend(each, a, init);
    }
  }

  /** The transcript of a concatenation is the concatenation of the transcripts. */
  lemma TranscriptAppend(codec: JsonCodec, respond: MCPRequest -> MCPResponse, a: seq<string>, b: seq<string>)
    ensures Transcript(codec, respond, a + b) == Transcript(codec, respond, a) + Transcript(codec, respond, b)
  {
    OutputsAppend(line => LineOutput(codec, respond, line), a, b);
  }

  /**
   * A line that fails to decode answers exactly one "Parse error" response
   * without an id, and the lines around it are answered as if it were absent.
   */
  lemma ParseErrorIsIsolated(codec: JsonCodec, respond: MCPRequest -> MCPResponse, before: seq<string>, line: string, after: seq<string>)
    requires !Blank(line) && codec.decodeLine(line).Err?
    ensures Transcript(codec, respond, before + [line] + after)
         == Transcript(codec, respond, before)
          + [Emit(codec, MCPResponse("2.0", None, None, Some(MCPError(-32700, "Parse error", Some(codec.decodeLine(line).error)))))]
          + Transcript(codec, respond, after)
  {
    TranscriptAppend(codec, respond, before + [line], after);
    TranscriptAppend(codec, respond, before, [line]);
    assert [line][..0] == [];
  }
}
