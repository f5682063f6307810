/**
 * pkg/server/server.go: the HTTP transport. The request's top-level method
 * is the tool name, and answers are tool payloads rather than JSON-RPC
 * envelopes.
 */
module HttpServer {
  import opened Wrappers
  import opened Types
  import opened Text
  import opened ToolSupport
  import opened Handlers
  import StdioServer

  /** What a client receives: the header map as sent, the status and the body. */
  datatype Exchange = Exchange(header: map<string, string>, status: nat, body: string)

  /**
   * The http.ResponseWriter of one request. A status of 0 means that no
   * status line has been written yet.
   */
  class ResponseWriter {
    var header: map<string, string>
    var status: nat
    var body: string

    /** What the writer has produced so far. */
    function Sent(): Exchange
      reads this
    {
      Exchange(header, status, body)
    }

    /** A writer as net/http hands it to a handler: nothing set, nothing written. */
    constructor ()
      ensures header == map[] && status == 0 && body == []
    {
      header := map[];
      status := 0;
      body := [];
    }

    /** Header().Set */
    method SetHeader(key: string, value: string)
      modifies this
      ensures header == old(header)[key := value]
      ensures status == old(status) && body == old(body)
    {
      header := header[key := value];
    }

    /** Header().Del */
    method DelHeader(key: string)
      modifies this
      ensures header == old(header) - {key}
      ensures status == old(status) && body == old(body)
    {
      header := header - {key};
    }

    /** WriteHeader: only the first status written counts. */
    method WriteHeader(code: nat)
      requires code != 0
      modifies this
      ensures status == if old(status) == 0 then code else old(status)
      ensures header == old(header) && body == old(body)
    {
      if status == 0 {
        status := code;
      }
    }

    /** Write: writing a body before any status implies 200. */
    method Write(data: string)
      modifies this
      ensures status == if old(status) == 0 then 200 else old(status)
      ensures body == old(body) + data
      ensures header == old(header)
    {
      if status == 0 {
        status := 200;
      }
      body := body + data;
    }

    /**
     * http.Error: switch the content type to plain text, drop any content
     * length, write the status, then the message and a newline.
     */
    method Error(message: string, code: nat)
      requires code != 0
      modifies this
      ensures Sent() == PlainError(old(header), old(status), old(body), message, code)
    {
      DelHeader("Content-Length");
      SetHeader("Content-Type", "text/plain; charset=utf-8");
      SetHeader("X-Content-Type-Options", "nosniff");
      WriteHeader(code);
      Write(message + "\n");
    }
  }

  /** The writer after http.Error on a writer in the given state. */
  function PlainError(header: map<string, string>, status: nat, body: string, message: string, code: nat): Exchange
  {
    Exchange(
      (header - {"Content-Length"})["Content-Type" := "text/plain; charset=utf-8"]["X-Content-Type-Options" := "nosniff"],
      if status == 0 then code else status,
      body + message + "\n")
  }

  /** The headers set on every request before anything else happens. */
  const CORS_HEADERS: map<string, string> := map[
    "Content-Type" := "application/json",
    "Access-Control-Allow-Origin" := "*",
    "Access-Control-Allow-Methods" := "GET, POST, OPTIONS",
    "Access-Control-Allow-Headers" := "Content-Type"]

  // ---- routing ----

  datatype Route = Help | Invoke(tool: Tool) | Unknown

  /** The flat routing of handleRequest: list_tools, one of the eight tools, or nothing. */
  function RouteOf(methodName: string): (route: Route)
    ensures route == Help <==> methodName == "list_tools"
    ensures route.Invoke? ==> Name(route.tool) == methodName
    ensures route == Unknown ==> forall t: Tool :: Name(t) != methodName
  {
    if methodName == "list_tools" then Help
    else match ToolFor(methodName)
      case Some(t) => Invoke(t)
      case None => Unknown
  }

  /** Exactly the names outside the default toolset table, other than list_tools, are unrouted. */
  lemma UnroutedNames(methodName: string)
    ensures RouteOf(methodName) == Unknown <==> methodName != "list_tools" && methodName !in DefaultToolNames()
  {
    RoutedNamesAreDefaultToolNames();
    AllToolsComplete();
    match RouteOf(methodName)
    case Invoke(t) => assert Name(t) in DefaultToolNames();
    case _ =>
  }

  const TOOL_BULLET := "  - "
  const PARAMETERS := "    Parameters: "
  const NAME_PARAMETER := "name (required), "
  const NAMESPACE_PARAMETER := "namespace (optional, default: '"

  /** A help line introducing one tool. */
  function ToolLine(name: string, description: string): string
  {
    TOOL_BULLET + name + ": " + description
  }

  /** The help line listing a tool's parameters. */
  function ParamsLine(nameRequired: bool, defaultNamespace: string): string
  {
    PARAMETERS + (if nameRequired then NAME_PARAMETER else "") + NAMESPACE_PARAMETER + defaultNamespace + "')"
  }

  const HELP_HEADING := "Available OLM MCP Tools:"

  /** The lines of the list_tools help text. */
  const HELP_LINES: seq<string> :=
    [ HELP_HEADING, "",
      "ClusterServiceVersion Tools:",
      ToolLine("list_csvs", "List ClusterServiceVersions in a namespace"),
      ParamsLine(false, "default"),
      ToolLine("get_csv", "Get detailed information about a specific ClusterServiceVersion"),
      ParamsLine(true, "default"), "",
      "Subscription Tools:",
      ToolLine("list_subscriptions", "List Subscriptions in a namespace"),
      ParamsLine(false, "default"),
      ToolLine("get_subscription", "Get detailed information about a specific Subscription"),
      ParamsLine(true, "default"), "",
      "CatalogSource Tools:",
      ToolLine("list_catalog_sources", "List CatalogSources in a namespace"),
      ParamsLine(false, "olm"),
      ToolLine("get_catalog_source", "Get detailed information about a specific CatalogSource"),
      ParamsLine(true, "olm"), "",
      "InstallPlan Tools:",
      ToolLine("list_install_plans", "List InstallPlans in a namespace"),
      ParamsLine(false, "default"),
      ToolLine("get_install_plan", "Get detailed information about a specific InstallPlan"),
      ParamsLine(true, "default"), "",
      "General Tools:",
      ToolLine("list_tools", "Show this help message") ]

  /** listTools: the help text as one plain text block. */
  function ListTools(): (r: ToolResult)
    ensures SingleText(r) && !r.isError
  {
    TextResult(Lines(HELP_LINES))
  }

  /** Where tool t is described in the help text. */
  function HelpIndex(t: Tool): nat
  {
    match t
    case ListCsvs => 3
    case GetCsv => 5
    case ListSubscriptions => 9
    case GetSubscription => 11
    case ListCatalogSources => 15
    case GetCatalogSource => 17
    case ListInstallPlans => 21
    case GetInstallPlan => 23
  }

  /**
   * The help text introduces every tool by its routed name with the
   * description tools/list advertises for it, and ends by introducing
   * list_tools itself.
   */
  lemma HelpNamesEveryTool(t: Tool)
    ensures HelpIndex(t) < |HELP_LINES|
    ensures HELP_LINES[HelpIndex(t)] == ToolLine(Name(t), StdioServer.Advertised(t).description)
    ensures HELP_LINES[|HELP_LINES| - 1] == ToolLine("list_tools", "Show this help message")
  {
    var lines := HELP_LINES;
    match t
    case ListCsvs => assert lines[3] == ToolLine("list_csvs", "List ClusterServiceVersions in a namespace");
    case GetCsv => assert lines[5] == ToolLine("get_csv", "Get detailed information about a specific ClusterServiceVersion");
    case ListSubscriptions => assert lines[9] == ToolLine("list_subscriptions", "List Subscriptions in a namespace");
    case GetSubscription => assert lines[11] == ToolLine("get_subscription", "Get detailed information about a specific Subscription");
    case ListCatalogSources => assert lines[15] == ToolLine("list_catalog_sources", "List CatalogSources in a namespace");
    case GetCatalogSource => assert lines[17] == ToolLine("get_catalog_source", "Get detailed information about a specific CatalogSource");
    case ListInstallPlans => assert lines[21] == ToolLine("list_install_plans", "List InstallPlans in a namespace");
    case GetInstallPlan => assert lines[23] == ToolLine("get_install_plan", "Get detailed information about a specific InstallPlan");
  }

  /**
   * Under each tool the help text marks `name` required exactly for the
   * get_* tools and gives as namespace default the namespace the handler
   * actually falls back to.
   */
  lemma HelpGivesParameters(t: Tool)
    ensures HelpIndex(t) + 1 < |HELP_LINES|
    ensures HELP_LINES[HelpIndex(t) + 1] == ParamsLine(IsGet(t), DefaultNamespace(t))
  {
    var lines := HELP_LINES;
    match t
    case ListCsvs => assert lines[4] == ParamsLine(false, "default");
    case GetCsv => assert lines[6] == ParamsLine(true, "default");
    case ListSubscriptions => assert lines[10] == ParamsLine(false, "default");
    case GetSubscription => assert lines[12] == ParamsLine(true, "default");
    case ListCatalogSources => assert lines[16] == ParamsLine(false, "olm");
    case GetCatalogSource => assert lines[18] == ParamsLine(true, "olm");
    case ListInstallPlans => assert lines[22] == ParamsLine(false, "default");
    case GetInstallPlan => assert lines[24] == ParamsLine(true, "default");
  }

  /** What handleRequest answers, given what each handler answers: a payload, or a Go error. */
  function Dispatch(tools: Toolset, req: MCPRequest): Result<ToolResult>
  {
    match RouteOf(req.methodName)
    case Help => Ok(ListTools())
    case Invoke(t) => tools(t, StdioServer.StringArguments(req.params))
    case Unknown => Ok(ErrorResult("Unknown method: " + req.methodName))
  }

  /** handleRequest: the flat method switch. */
  method HandleRequest(client: OlmClient, ghost tools: Toolset, req: MCPRequest) returns (r: Result<ToolResult>)
    requires HandlersOf(client, tools)
    ensures r == Dispatch(tools, req)
  {
    var route := RouteOf(req.methodName);
    match route
    case Help => r := Ok(ListTools());
    case Invoke(t) =>
      var params := StdioServer.FlattenArguments(req.params);
      r := Run(client, tools, t, params);
    case Unknown => r := Ok(ErrorResult("Unknown method: " + req.methodName));
  }

  /** The payload ServeHTTP encodes: a Go error from handleRequest becomes an error-flagged text. */
  function Payload(tools: Toolset, req: MCPRequest): ToolResult
  {
    match Dispatch(tools, req)
    case Ok(result) => result
    case Err(e) => ErrorResult("Internal server error: " + e)
  }

  /** What ServeHTTP sends for a request with the given method and body. */
  function Serve(codec: JsonCodec, tools: Toolset, httpMethod: string, requestBody: string): Exchange
  {
    if httpMethod == "OPTIONS" then Exchange(CORS_HEADERS, 200, "")
    else if httpMethod != "POST" then PlainError(CORS_HEADERS, 0, "", "Method not allowed", 405)
    else match codec.decodeBody(requestBody)
      case Err(_) => PlainError(CORS_HEADERS, 0, "", "Bad request", 400)
      case Ok(req) =>
        match codec.encodeToolResult(Payload(tools, req))
        case Ok(text) => Exchange(CORS_HEADERS, 200, text + "\n")
        case Err(_) => PlainError(CORS_HEADERS, 0, "", "Internal server error", 500)
  }

  /** ServeHTTP: set the headers, gate on the method, decode, dispatch, encode. */
  method ServeHTTP(w: ResponseWriter, codec: JsonCodec, client: OlmClient, ghost tools: Toolset, httpMethod: string, requestBody: string)
    requires HandlersOf(client, tools)
    requires w.header == map[] && w.status == 0 && w.body == []
    modifies w
    ensures w.Sent() == Serve(codec, tools, httpMethod, requestBody)
  {
    w.SetHeader("Content-Type", "application/json");
    w.SetHeader("Access-Control-Allow-Origin", "*");
    w.SetHeader("Access-Control-Allow-Methods", "GET, POST, OPTIONS");
    w.SetHeader("Access-Control-Allow-Headers", "Content-Type");
    assert w.header == CORS_HEADERS;

    if httpMethod == "OPTIONS" {
      w.WriteHeader(200);
      return;
    }

    if httpMethod != "POST" {
      w.Error("Method not allowed", 405);
      return;
    }

    var req := codec.decodeBody(requestBody);
    if req.Err? {
      w.Error("Bad request", 400);
      return;
    }

    var dispatched := HandleRequest(client, tools, req.value);
    var response: ToolResult;
    if dispatched.Err? {
      response := ErrorResult("Internal server error: " + dispatched.error);
    } else {
      response := dispatched.value;
    }

    var encoded := codec.encodeToolResult(response);
    if encoded.Err? {
      w.Error("Internal server error", 500);
      return;
    }
    w.Write(encoded.value + "\n");
  }

  /** The three CORS headers as set at the top of ServeHTTP. */
  predicate CorsSent(header: map<string, string>)
  {
    && "Access-Control-Allow-Origin" in header && header["Access-Control-Allow-Origin"] == "*"
    && "Access-Control-Allow-Methods" in header && header["Access-Control-Allow-Methods"] == "GET, POST, OPTIONS"
    && "Access-Control-Allow-Headers" in header && header["Access-Control-Allow-Headers"] == "Content-Type"
  }

  /** http.Error after the CORS headers keeps them, and answers plain text with the given status. */
  lemma PlainErrorKeepsCors(message: string, code: nat)
    ensures var x := PlainError(CORS_HEADERS, 0, "", message, code);
      && CorsSent(x.header) && x.status == code && x.body == message + "\n"
      && "Content-Type" in x.header && x.header["Content-Type"] == "text/plain; charset=utf-8"
  {
    var h := (CORS_HEADERS - {"Content-Length"})["Content-Type" := "text/plain; charset=utf-8"]["X-Content-Type-Options" := "nosniff"];
    assert "Access-Control-Allow-Origin" in h && h["Access-Control-Allow-Origin"] == CORS_HEADERS["Access-Control-Allow-Origin"];
    assert "Access-Control-Allow-Methods" in h && h["Access-Control-Allow-Methods"] == CORS_HEADERS["Access-Control-Allow-Methods"];
    assert "Access-Control-Allow-Headers" in h && h["Access-Control-Allow-Headers"] == CORS_HEADERS["Access-Control-Allow-Headers"];
  }

  /**
   * The three CORS headers reach the client on every request, whatever its
   * method, body or outcome; the content type stays JSON exactly when the
   * answer is not an http.Error.
   */
  lemma CorsOnEveryRequest(codec: JsonCodec, tools: Toolset, httpMethod: string, requestBody: string)
    ensures var x := Serve(codec, tools, httpMethod, requestBody);
      && CorsSent(x.header)
      && "Content-Type" in x.header
      && (x.header["Content-Type"] == "application/json" <==> x.status == 200)
  {
    if httpMethod == "OPTIONS" {
    } else if httpMethod != "POST" {
      PlainErrorKeepsCors("Method not allowed", 405);
    } else if codec.decodeBody(requestBody).Err? {
      PlainErrorKeepsCors("Bad request", 400);
    } else if codec.encodeToolResult(Payload(tools, codec.decodeBody(requestBody).value)).Err? {
      PlainErrorKeepsCors("Internal server error", 500);
    }
  }

  /**
   * Method gating: OPTIONS answers 200 with no body, any other method but
   * POST answers 405, and neither reads the body or reaches a handler.
   */
  lemma MethodGating(c1: JsonCodec, c2: JsonCodec, t1: Toolset, t2: Toolset, httpMethod: string, b1: string, b2: string)
    requires httpMethod != "POST"
    ensures Serve(c1, t1, httpMethod, b1) == Serve(c2, t2, httpMethod, b2)
    ensures httpMethod == "OPTIONS" ==> Serve(c1, t1, httpMethod, b1).status == 200 && Serve(c1, t1, httpMethod, b1).body == ""
    ensures httpMethod != "OPTIONS" ==>
      Serve(c1, t1, httpMethod, b1).status == 405 && Serve(c1, t1, httpMethod, b1).body == "Method not allowed\n"
  {
  }

  /** A POST whose body does not decode answers 400 and reaches no handler. */
  lemma BadRequest(codec: JsonCodec, t1: Toolset, t2: Toolset, requestBody: string)
    requires codec.decodeBody(requestBody).Err?
    ensures Serve(codec, t1, "POST", requestBody) == Serve(codec, t2, "POST", requestBody)
    ensures Serve(codec, t1, "POST", requestBody).status == 400
    ensures Serve(codec, t1, "POST", requestBody).body == "Bad request\n"
  {
  }

  /**
   * list_tools answers the help text, and an unrouted method is not a
   * protocol error: it answers an error-flagged text naming the method.
   * Neither consults a handler.
   */
  lemma UnroutedPayload(tools: Toolset, req: MCPRequest)
    ensures req.methodName == "list_tools" ==> Payload(tools, req) == ListTools()
    ensures req.methodName != "list_tools" && req.methodName !in DefaultToolNames() ==>
      Payload(tools, req) == ErrorResult("Unknown method: " + req.methodName)
  {
    UnroutedNames(req.methodName);
  }

  /**
   * With the handlers of pkg/tools, "Internal server error: ..." is never
   * produced, because no handler returns a Go error.
   */
  lemma DispatchNeverFails(client: OlmClient, tools: Toolset, req: MCPRequest)
    requires HandlersOf(client, tools)
    ensures Dispatch(tools, req).Ok?
  {
    match RouteOf(req.methodName)
    case Invoke(t) => HandlersAnswerPayloads(client, tools, t, StdioServer.StringArguments(req.params));
    case _ =>
  }

  /**
   * Both transports reach the same handler with the same string arguments:
   * an HTTP request whose method is a tool name and whose params are P, and
   * a stdio tools/call of that tool with arguments P. A payload is answered
   * by both; a Go error becomes an error-flagged text over HTTP and a
   * "Tool execution failed" error over stdio.
   */
  lemma TransportsAgree(tools: Toolset, httpReq: MCPRequest, rpcReq: MCPRequest, t: Tool)
    requires httpReq.methodName == Name(t)
    requires rpcReq.methodName == "tools/call"
    requires "name" in rpcReq.params && rpcReq.params["name"] == Str(Name(t))
    requires "arguments" in rpcReq.params && rpcReq.params["arguments"] == Object(httpReq.params)
    ensures match tools(t, StdioServer.StringArguments(httpReq.params))
      case Ok(p) =>
        && Payload(tools, httpReq) == p
        && StdioServer.Response(tools, rpcReq).result == Some(ToolCallResult(p))
      case Err(e) =>
        && Payload(tools, httpReq) == ErrorResult("Internal server error: " + e)
        && StdioServer.Response(tools, rpcReq).error == Some(MCPError(-32603, "Tool execution failed", Some(e)))
  {
    ToolForName(t);
    assert RouteOf(httpReq.methodName) == Invoke(t);
    StdioServer.ToolCallPassesResult(tools, rpcReq, t);
  }

  /** With the handlers of pkg/tools, the HTTP payload is exactly the stdio tools/call result. */
  lemma HandlersAgree(client: OlmClient, tools: Toolset, httpReq: MCPRequest, rpcReq: MCPRequest, t: Tool)
    requires HandlersOf(client, tools)
    requires httpReq.methodName == Name(t)
    requires rpcReq.methodName == "tools/call"
    requires "name" in rpcReq.params && rpcReq.params["name"] == Str(Name(t))
    requires "arguments" in rpcReq.params && rpcReq.params["arguments"] == Object(httpReq.params)
    ensures StdioServer.Response(tools, rpcReq).result == Some(ToolCallResult(Payload(tools, httpReq)))
  {
    TransportsAgree(tools, httpReq, rpcReq, t);
    HandlersAnswerPayloads(client, tools, t, StdioServer.StringArguments(httpReq.params));
  }
}
