# olmv0-mcp-server: the request-dispatch core in Dafny

olmv0-mcp-server is a Model Context Protocol server (protocol revision
"2025-06-18") that gives read-only access to the objects of the Operator
Lifecycle Manager (OLM): ClusterServiceVersions, Subscriptions,
CatalogSources and InstallPlans. It has two transports:

- A stdio transport speaks JSON-RPC 2.0, one request per line
  (`pkg/server/mcp.go`). Its error codes follow section 5.1 of the JSON-RPC
  2.0 specification.
- An HTTP transport takes the tool name as the top-level method
  (`pkg/server/server.go`).

Both transports route to the same eight tool handlers, two per resource kind
(`pkg/tools/*.go`). Each handler reads its arguments, asks the backing OLM
client, and renders a text answer.

The model consists of these modules:

- `Types` (`types.dfy`) holds the protocol records of `pkg/types/types.go`
  and the default toolset table. The backing client (`OLMClientInterface`)
  is an oracle: a record of eight total functions, each answering `Ok(...)`
  or `Err(message)`. The JSON codec is an oracle of the same kind.
- `ToolSupport` (`tool_support.dfy`) holds what the handler files share:
  - reading a Go `map[string]string`;
  - the namespace default;
  - the single-text payload;
  - the two text layouts, a listing and a detail view.

  A rendered text is specified as a list of lines. `Text.Lines` is what a
  `strings.Builder` holds after writing each line and a newline.
- `CsvTools`, `SubscriptionTools`, `CatalogTools` and `InstallPlanTools`
  model one handler file each.
  - The rendering loops are methods.
  - Each loop is proved to build exactly the text its specification function
    describes.
  - The lemmas prove what that text tells a reader: `SplitLines` and `Split`
    recover the title, the header and one row per item, in list order.
- `Handlers` (`handlers.dfy`) holds the tool enumeration, the tool switch
  (`Run`), and what every handler answers (`Outcome`).
  - A dispatcher is proved against a `Toolset`: any function from a tool and
    its string arguments to a result.
  - So the dispatch lemmas hold for any handlers. `HandlersOf` narrows a
    `Toolset` to the handlers of `pkg/tools`.
- `StdioServer` (`mcp.dfy`) models the line loop `Start`, `handleRequest`,
  `initialize`, `tools/list`, `tools/call` with its argument flattening loop,
  and `sendError`.
  - The loop is specified by `Transcript`, which gives the lines printed for a
    sequence of input lines.
  - `Transcript` is parameterized by what `handleRequest` answers, so its
    lemmas hold whatever the handlers do.
- `HttpServer` (`server.dfy`) models `ServeHTTP` over a `ResponseWriter`
  class, the flat `handleRequest` routing, and the `list_tools` help text.
  - The writer's fields are the header map, the status and the body.
  - `http.Error`, `WriteHeader` and `Write` behave as in `net/http`.

Two behaviours of the code are worth stating:

- Over HTTP, an unknown method is answered with an error-flagged text
  payload "Unknown method: <m>" and status 200, not with a -32601 error
  (`pkg/server/server.go:103-111`).
- A `get_*` call without a name is answered with an error-flagged payload
  "Error: 'name' parameter is required", not with a protocol-level -32602
  error (for example `pkg/tools/csv.go:70-78`).

## Model

| member | source | states |
|---|---|---|
| Types.DefaultToolsetsShape | pkg/types/types.go:76-93 | The default toolset table has exactly the keys csv, subscription, catalog and installplan; each has exactly two tools, and every tool is enabled. |
| Types.DefaultToolNamesDistinct | pkg/types/types.go:78-91 | Two entries of the table with the same name are the same entry. |
| Types.DefaultToolNamesAre | pkg/types/types.go:78-91 | The default tool names are exactly the eight tool names. |
| Handlers.RoutedNamesAreDefaultToolNames | pkg/server/mcp.go:278-294 | The names the tool switches route are exactly the names of the default toolset table. |
| Handlers.ToolFor | pkg/server/mcp.go:278-304 | A name selects a tool only if that tool has the name; a name that selects none is the name of no tool. |
| Handlers.ToolForName | pkg/server/server.go:87-102 | Looking up a tool's own name selects that tool, so names and tools correspond one to one. |
| Handlers.AllToolsComplete | pkg/server/mcp.go:106-231 | The registry order lists every tool. |
| Handlers.NamesDistinct | pkg/server/mcp.go:278-294 | Two different tools never share a name. |
| Handlers.DefaultNamespaces | pkg/tools/catalog.go:21-24 | A handler falls back to "olm" for the two CatalogSource tools and to "default" for the other six. |
| Handlers.Run | pkg/server/mcp.go:278-294 | The tool switch answers exactly what the selected handler answers for the given string arguments. |
| Handlers.OutcomeIsPayload | pkg/tools/csv.go:20-124 | No handler ever returns a Go error: every answer, failures included, is a payload of exactly one text block (the same holds in the other three handler files). |
| Handlers.GetWithoutName | pkg/tools/subscription.go:71-79 | A get_* tool without a name answers the error-flagged "Error: 'name' parameter is required", the same whatever the backing client would say. |
| Handlers.ListUsesNamespace | pkg/tools/installplan.go:21-35 | A list tool asks the backing client for the caller's namespace when it is non-empty, otherwise the tool's default; its payload is error-flagged exactly when that call fails. |
| ToolSupport.Namespace | pkg/tools/csv.go:21-24 | The namespace is the caller's when non-empty, and the handler's default otherwise. |
| ToolSupport.TableReadsBack | pkg/tools/csv.go:37-53 | A listing with newline-free title and tab- and newline-free cells splits back into the title, a blank line, then the "none found" line, or the header columns and one row per item in list order, each splitting at tabs into exactly that item's cells. |
| ToolSupport.DetailReadsBack | pkg/tools/csv.go:102-116 | A detail view's lines begin with its head, line for line, whatever the JSON text contains. |
| ToolSupport.DetailText | pkg/tools/csv.go:113-116 | A detail view's text ends with the heading "Full JSON representation:", the opening fence, the JSON text and the closing fence, each followed by a newline. |
| CsvTools.ListCSVs | pkg/tools/csv.go:20-61 | The builder loop writes exactly the listing text, or the error-flagged "Error listing ClusterServiceVersions: <err>"; it never returns a Go error. |
| CsvTools.ListingReadsBack | pkg/tools/csv.go:37-53 | For a namespace without line breaks and fields without tabs or line breaks, an empty list reads back as the title, a blank line and "No ClusterServiceVersions found."; otherwise as the title, a blank line, the five-column header and one row per ClusterServiceVersion in list order, with its name, namespace, phase, version and replaced CSV. |
| CsvTools.GetCSV | pkg/tools/csv.go:63-124 | Always one text block and no Go error. An empty name gives the missing-name error. A failed fetch gives an error naming the requested CSV and carrying the client's error. A marshalling failure gives "Error marshaling CSV to JSON: <err>". A fetched and marshalled CSV gives the detail view of its head and JSON text. The answer is error-flagged exactly when one of the first three happens. A successful answer begins "ClusterServiceVersion: <ns>/<name>" and a newline. |
| CsvTools.GetWithoutNameIgnoresClient | pkg/tools/csv.go:70-78 | Without a name the answer does not depend on the backing client. |
| SubscriptionTools.ListSubscriptions | pkg/tools/subscription.go:20-62 | The builder loop writes exactly the listing text, or the error-flagged "Error listing Subscriptions: <err>"; it never returns a Go error. |
| SubscriptionTools.ListingReadsBack | pkg/tools/subscription.go:37-54 | For a namespace without line breaks and fields without tabs or line breaks, an empty list reads back as the title, a blank line and "No Subscriptions found."; otherwise as the title, a blank line, the six-column header and one row per Subscription in list order. |
| SubscriptionTools.GetSubscription | pkg/tools/subscription.go:64-126 | Always one text block and no Go error. An empty name gives the missing-name error. A failed fetch gives an error naming the requested Subscription. A marshalling failure gives "Error marshaling Subscription to JSON: <err>". A fetched and marshalled Subscription gives the detail view of its head and JSON text. The answer is error-flagged exactly when one of the first three happens. A successful answer begins "Subscription: <ns>/<name>" and a newline. |
| SubscriptionTools.GetWithoutNameIgnoresClient | pkg/tools/subscription.go:71-79 | Without a name the answer does not depend on the backing client. |
| CatalogTools.ListCatalogSources | pkg/tools/catalog.go:20-61 | The builder loop writes exactly the listing text, or the error-flagged "Error listing CatalogSources: <err>"; it never returns a Go error. |
| CatalogTools.ListingReadsBack | pkg/tools/catalog.go:37-53 | For a namespace without line breaks and fields without tabs or line breaks, an empty list reads back as the title, a blank line and "No CatalogSources found."; otherwise as the title, the header and one row per CatalogSource in list order, including sources that have no connection state. |
| CatalogTools.ObservedStateAsWritten | pkg/tools/catalog.go:50 | Reading the observed state through the connection-state pointer fails exactly when the status has no connection state. |
| CatalogTools.RowAsWrittenFailsWithoutConnection | pkg/tools/catalog.go:44-52 | A listing row cannot be rendered as the code is written exactly when the CatalogSource has no connection state, whatever else it holds. |
| CatalogTools.RowsAsWritten | pkg/tools/catalog.go:44-52 | The listing loop as written fails exactly when some listed source has no connection state. Otherwise it writes one row per source, in list order. |
| CatalogTools.ListingAsWritten | pkg/tools/catalog.go:20-61 | list_catalog_sources as written panics exactly when the client lists a source with no connection state: over HTTP the request gets no response and its connection is closed; over stdio the process ends. Whenever it answers, it answers the listing `ListCatalogSources` builds. |
| CatalogTools.DetailHeadAsWritten | pkg/tools/catalog.go:102-121 | The detail head as written fails exactly when the source has no connection state. Otherwise it is the corrected `DetailHead`. |
| CatalogTools.GetAsWritten | pkg/tools/catalog.go:63-132 | get_catalog_source as written panics exactly when a named, fetched and marshalled source has no connection state: over HTTP the request gets no response and its connection is closed; over stdio the process ends. Whenever it answers, it answers what `GetCatalogSource` answers. |
| CatalogTools.Row | pkg/tools/catalog.go:45-51 | Wherever the row as written can be rendered, it is this row. |
| CatalogTools.DetailHead | pkg/tools/catalog.go:102-121 | The detail head is eleven lines, plus the "Last Observed" line exactly when the last connect time is non-zero, plus the "Image" and "Address" lines exactly when the source type is "grpc". The connection state line shows the observed state, and the head ends with a blank line. |
| CatalogTools.GetCatalogSource | pkg/tools/catalog.go:63-132 | Always one text block and no Go error. An empty name gives the missing-name error. A failed fetch gives an error naming the requested CatalogSource. A marshalling failure gives "Error marshaling CatalogSource to JSON: <err>". A fetched and marshalled source gives the detail view of its head and JSON text. The answer is error-flagged exactly when one of the first three happens. A successful answer begins "CatalogSource: <ns>/<name>" and a newline. |
| CatalogTools.GetWithoutNameIgnoresClient | pkg/tools/catalog.go:70-78 | Without a name the answer does not depend on the backing client. |
| InstallPlanTools.ListInstallPlans | pkg/tools/installplan.go:20-61 | The builder loop writes exactly the listing text, or the error-flagged "Error listing InstallPlans: <err>"; it never returns a Go error. |
| InstallPlanTools.ListingReadsBack | pkg/tools/installplan.go:37-53 | For a namespace without line breaks and fields without tabs or line breaks, an empty list reads back as the title, a blank line and "No InstallPlans found."; otherwise as the title, the header and one row per InstallPlan in list order, whose Approved column is "true" or "false". |
| InstallPlanTools.CsvSection | pkg/tools/installplan.go:112-118 | The CSV section is absent for an empty name list; otherwise it is the heading, one "  - <name>" line per name in order, and a blank line. |
| InstallPlanTools.PlanSection | pkg/tools/installplan.go:120-131 | The plan section is absent for an empty plan; otherwise it is the heading, one line per step in order, and a blank line. |
| InstallPlanTools.Detailed | pkg/tools/installplan.go:63-144 | Always one text block. An empty name gives the missing-name error. A failed fetch gives an error naming the requested InstallPlan. A marshalling failure gives "Error marshaling InstallPlan to JSON: <err>". A fetched and marshalled InstallPlan gives the detail view of its head, with both optional sections, and JSON text. The answer is error-flagged exactly when one of the first three happens. A successful answer begins "InstallPlan: <ns>/<name>" and a newline. |
| InstallPlanTools.GetInstallPlan | pkg/tools/installplan.go:63-144 | The handler answers the payload `Detailed` describes and never a Go error. |
| InstallPlanTools.Describe | pkg/tools/installplan.go:102-137 | The text written is the basic info, the two optional sections and the JSON block, in that order. |
| InstallPlanTools.WriteCsvSection | pkg/tools/installplan.go:112-118 | The loop appends exactly the CSV section to the text written so far. |
| InstallPlanTools.WritePlanSection | pkg/tools/installplan.go:120-131 | The loop appends exactly the plan section to the text written so far. |
| InstallPlanTools.GetWithoutNameIgnoresClient | pkg/tools/installplan.go:70-78 | Without a name the answer does not depend on the backing client. |
| StdioServer.ErrorResponse | pkg/server/mcp.go:325-338 | An error response has version "2.0", echoes the id, and carries an error and no result. |
| StdioServer.ResultResponse | pkg/server/mcp.go:318-322 | A result response has version "2.0", echoes the id, and carries a result and no error. |
| StdioServer.AdvertisedAgreesWithHandlers | pkg/server/mcp.go:106-231 | Each registry entry carries the tool's routed name and declares `name` required exactly for the get_* tools. Its last property is `namespace`, whose advertised default is the handler's actual default. |
| StdioServer.ToolsList | pkg/server/mcp.go:105-240 | tools/list lists one entry per tool, in registry order. |
| StdioServer.ToolsListRoutes | pkg/server/mcp.go:106-231 | Every advertised name routes to the tool listed at that position, and no two entries share a name. |
| StdioServer.ToolsListNames | pkg/server/mcp.go:106-231 | The advertised names are exactly the names of the default toolset table. |
| StdioServer.FlattenArguments | pkg/server/mcp.go:267-273 | The loop keeps exactly the string-valued entries of the arguments, with their strings, and drops every other entry. |
| StdioServer.ToolCallResponse | pkg/server/mcp.go:242-323 | Every tools/call answer has version "2.0", echoes the id, and carries exactly one of result and error. |
| StdioServer.HandleToolCall | pkg/server/mcp.go:242-323 | handleToolCall answers exactly the specified tools/call response. |
| StdioServer.ToolCallRejections | pkg/server/mcp.go:243-304 | A missing or non-object `arguments` gives -32602 "Invalid params" whatever `name` is. Then a missing or non-string `name` gives -32602 "Tool name required". Then "Unknown tool" (-32601) is answered exactly for names outside the default toolset table. No rejection depends on the handlers. |
| StdioServer.ToolCallPassesResult | pkg/server/mcp.go:306-322 | A routed tool runs on exactly the string-valued arguments. Its payload is the result, unchanged, and a Go error becomes -32603 "Tool execution failed" carrying the error text. |
| StdioServer.ToolCallNeverFailsExecution | pkg/server/mcp.go:306-316 | With the handlers of pkg/tools, -32603 is never answered to a tools/call. |
| StdioServer.Response | pkg/server/mcp.go:66-86 | Every response to a decoded request has version "2.0", echoes the id, and carries exactly one of result and error. |
| StdioServer.HandleRequest | pkg/server/mcp.go:66-86 | handleRequest answers exactly the specified response. |
| StdioServer.Routing | pkg/server/mcp.go:69-103 | initialize answers protocol version 2025-06-18, an empty tools capability and server olmv0-mcp-server 1.0.0, and tools/list answers the registry. "Method not found" (-32601) is answered exactly for methods other than the three known ones. |
| Text.TrimSpaceEmpty | pkg/server/mcp.go:42 | A line trims to nothing exactly when all its characters are white space. |
| StdioServer.Start | pkg/server/mcp.go:36-64 | The loop prints exactly the transcript of its input lines. |
| StdioServer.TranscriptIsReplies | pkg/server/mcp.go:40-61 | There is one output line per non-blank input line, in input order. Each is the reply to that line alone: blank lines print nothing. |
| StdioServer.TranscriptAppend | pkg/server/mcp.go:40-61 | The loop keeps no state between lines: the output for two batches of lines is the output of each, concatenated. |
| StdioServer.ParseErrorIsIsolated | pkg/server/mcp.go:47-50 | An undecodable line prints exactly one -32700 "Parse error" response with no id. The lines before and after it are answered as if it were absent. |
| HttpServer.ResponseWriter.constructor | pkg/server/server.go:35 | A writer as a handler receives it has no header, no status and no body. |
| HttpServer.ResponseWriter.SetHeader | pkg/server/server.go:38-41 | Header().Set replaces one header and changes nothing else. |
| HttpServer.ResponseWriter.DelHeader | pkg/server/server.go:49 | Header().Del removes one header and changes nothing else. |
| HttpServer.ResponseWriter.WriteHeader | pkg/server/server.go:44 | Only the first status written takes effect. |
| HttpServer.ResponseWriter.Write | pkg/server/server.go:72 | Writing appends to the body and implies status 200 if no status was written. |
| HttpServer.ResponseWriter.Error | pkg/server/server.go:49 | http.Error leaves the writer in the state `PlainError` describes: plain-text content type, nosniff, no content length, the status, then the message and a newline. |
| HttpServer.RouteOf | pkg/server/server.go:84-103 | list_tools routes to the help text, and a tool's name routes to that tool. Anything else is unrouted and names no tool. |
| HttpServer.UnroutedNames | pkg/server/server.go:103-111 | A method is unrouted exactly when it is neither list_tools nor a default tool name. |
| HttpServer.ListTools | pkg/server/server.go:114-151 | The help text is one plain text block, not error-flagged. |
| HttpServer.HelpNamesEveryTool | pkg/server/server.go:116-143 | The help text introduces every tool by its routed name with the description tools/list advertises for it, and ends by introducing list_tools. |
| HttpServer.HelpGivesParameters | pkg/server/server.go:118-140 | Under each tool the help text marks `name` required exactly for the get_* tools, and gives as default namespace the one the handler falls back to ('olm' for CatalogSources, 'default' otherwise). |
| HttpServer.HandleRequest | pkg/server/server.go:78-112 | The flat method switch answers exactly the specified dispatch: the help text, the routed handler's answer on the string-valued params, or "Unknown method: <m>". |
| HttpServer.ServeHTTP | pkg/server/server.go:35-76 | The writer ends in exactly the state the specified exchange describes for the request's method and body. |
| HttpServer.PlainErrorKeepsCors | pkg/server/server.go:49 | http.Error after the CORS headers keeps them, switches the content type to plain text, and sends the status and the message. |
| HttpServer.CorsOnEveryRequest | pkg/server/server.go:38-41 | The three CORS headers reach the client on every request. The content type stays JSON exactly when the status is 200. |
| HttpServer.MethodGating | pkg/server/server.go:43-51 | OPTIONS answers 200 with no body, and any other method but POST answers 405 "Method not allowed". Neither depends on the body, the codec or the handlers. |
| HttpServer.BadRequest | pkg/server/server.go:53-58 | A POST body that does not decode answers 400 "Bad request" and reaches no handler. |
| HttpServer.UnroutedPayload | pkg/server/server.go:103-111 | list_tools answers the help text. Any method that is neither list_tools nor a tool name answers the error-flagged "Unknown method: <m>", not a protocol error. |
| HttpServer.DispatchNeverFails | pkg/server/server.go:60-70 | With the handlers of pkg/tools, the "Internal server error: <err>" payload is never produced. |
| HttpServer.TransportsAgree | pkg/server/server.go:84-102 | An HTTP request naming a tool and a stdio tools/call of that tool with the same params reach the same handler with the same string arguments. A payload is answered by both. A Go error becomes "Internal server error: <err>" over HTTP and -32603 over stdio. |
| HttpServer.HandlersAgree | pkg/server/server.go:84-102 | With the handlers of pkg/tools, the HTTP payload is exactly the stdio tools/call result. |

## Left out

- JSON encoding and decoding are oracles (`Types.JsonCodec`), so `omitempty` and the encoding of optional fields are not modelled. The datatypes keep `id`, `result`, `error` and `data` as `Option`s and `isError` as a flag. `json.MarshalIndent` of an OLM object is an opaque `Marshalled` field of the record.
- A JSON number is a `real`. The model does not follow `float64` rounding of ids.
- An empty `required` list in `InputSchema` stands for the key being absent.
- Reading stdin and writing stdout are not modelled. `Start` takes its input as a sequence of lines and returns the sequence of printed lines.
- `bufio.Scanner`'s 64 KiB line limit is not modelled: the model assumes every line fits. The same goes for the scanner error `Start` returns when the input ends.
- Logging (logrus) and `context.Context` are not modelled. They do not affect any computed answer, so the handlers take no context.
- `StartServer` and `http.ListenAndServe` (`pkg/server/server.go:153-165`) are not modelled, nor is concurrency across HTTP connections. Nothing in the core shares mutable state.
- cmd/olmv0-mcp-server/main.go is not part of this model (process start-up and flags). Neither is pkg/client/olm.go: the backing client is the oracle `Types.OlmClient`.
- All handlers answer one `ToolResult` (content blocks plus `isError`). The code builds `types.MCPResponse{Content, IsError}` in three handler files and `types.MCPToolResult` in `pkg/tools/catalog.go`. `MCPResponse` has neither field (`pkg/types/types.go:40-45`).
- HttpServer.HandleRequest: the HTTP path passes the request's `map[string]interface{}` params to handlers that take `map[string]string` (`pkg/server/server.go:80,88`). The model applies the same string-only filter as the stdio path (`pkg/server/mcp.go:268-273`).
- `Version.String()`, `LastConnectTime.String()` and the zero-time test are opaque string fields of the records. `%t` is "true"/"false".
- HttpServer.ServeHTTP: requires a fresh writer, as `net/http` hands one to every request.
- HttpServer.ResponseWriter.Sent reports the header map as it stands at the end. `net/http` sends the map as it was when the status was written. No path through ServeHTTP changes a header after writing the status, so the two agree.
- CatalogTools.ListCatalogSources: renders an empty state for a CatalogSource with no connection state, where the code as written dereferences nil (`pkg/tools/catalog.go:50`). `CatalogTools.ListingAsWritten` models the code as written (see Findings).
- CatalogTools.GetCatalogSource: answers a detail view for a CatalogSource with no connection state, where the code as written dereferences nil (`pkg/tools/catalog.go:110-111`). `CatalogTools.GetAsWritten` models the code as written.
- CatalogTools.DetailHead: shows an empty connection state and no "Last Observed" line when the status has no connection state. `CatalogTools.DetailHeadAsWritten` is the head as written, which does not exist in that case.
- Handlers.OutcomeIsPayload: holds for the corrected catalog handlers, which every dispatcher runs. As written, a CatalogSource with no connection state makes the handler panic instead of answering: over HTTP the request gets no response and its connection is closed; over stdio the process ends.
- StdioServer.TranscriptIsReplies: holds with the corrected catalog handlers. As written, a tools/call that reaches a CatalogSource with no connection state ends the loop, so later lines get no reply.
- StdioServer.ToolCallNeverFailsExecution: holds with the corrected catalog handlers; as written, the panic case answers nothing at all.
- HttpServer.DispatchNeverFails: holds with the corrected catalog handlers; as written, the panic case answers nothing at all.
- The v1alpha1 CatalogSource type is not part of this model. The nil dereferences in the findings below rely on its `GRPCConnectionState` field being a pointer.

## Findings

| source | as written | input that shows it | evidently intended | confidence | as-written member | corrected member |
|---|---|---|---|---|---|---|
| pkg/tools/catalog.go:50 | The listing reads `Status.GRPCConnectionState.LastObservedState` through a pointer that is nil until a connection has been observed. | A freshly created CatalogSource whose status has no connection state: the handler dereferences nil instead of answering. | Render an empty state for such a source, and omit its "Last Observed" line. | not executed; medium (relies on the external v1alpha1 type) | CatalogTools.ListingAsWritten | CatalogTools.ListingReadsBack |
| pkg/tools/catalog.go:110-111 | The get handler reads `LastObservedState` and `LastConnectTime` through the same pointer. | A named CatalogSource that the client returns and that marshals, but whose status has no connection state. | Show an empty connection state and no "Last Observed" line. | not executed; medium (relies on the external v1alpha1 type) | CatalogTools.GetAsWritten | CatalogTools.DetailHead |
