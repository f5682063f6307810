/** pkg/tools/catalog.go: the list_catalog_sources and get_catalog_source handlers. */
module CatalogTools {
  import opened Wrappers
  import opened Types
  import opened Text
  import opened ToolSupport

  /** CatalogSources live in the "olm" namespace unless the caller says otherwise. */
  const DEFAULT_NAMESPACE := "olm"
  /** The listing header: these column names, tab-separated. */
  const COLUMNS := ["NAME", "NAMESPACE", "SOURCE TYPE", "DISPLAY NAME", "STATE"]
  const NONE_FOUND := "No CatalogSources found."
  const TITLE := "CatalogSources in namespace '"
  const LIST_ERROR := "Error listing CatalogSources: "
  const GET_ERROR := "Error getting CatalogSource '"
  const MARSHAL_ERROR := "Error marshaling CatalogSource to JSON: "
  const HEADING := "CatalogSource: "
  const SOURCE_TYPE_LABEL := "  Source Type: "
  const PUBLISHER_LABEL := "  Publisher: "
  const CONNECTION_STATE_LABEL := "  Connection State: "
  const LAST_OBSERVED_LABEL := "  Last Observed: "
  const IMAGE_LABEL := "  Image: "
  const ADDRESS_LABEL := "  Address: "
  /** The source type whose image and address the detail view shows. */
  const GRPC := "grpc"

  function Title(ns: string): string
  {
    TITLE + ns + TITLE_END
  }

  /** The title is one line when the namespace is. */
  lemma TitleIsOneLine(ns: string)
    requires NL !in ns
    ensures NL !in Title(ns)
  {
    assert forall k :: 0 <= k < |TITLE| ==> TITLE[k] != NL;
    assert forall k :: 0 <= k < |TITLE_END| ==> TITLE_END[k] != NL;
  }

  /**
   * Status.GRPCConnectionState.LastObservedState as the source reads it: the
   * connection state is a pointer, so reading through it when it is absent is a
   * nil dereference, here None.
   */
  function ObservedStateAsWritten(c: CatalogSource): (s: Option<string>)
    ensures s.None? <==> c.connection.None?
  {
    match c.connection
    case None => None
    case Some(st) => Some(st.lastObservedState)
  }

  /** The observed connection state, empty when the status has none. */
  function ObservedState(c: CatalogSource): string
  {
    match c.connection
    case None => ""
    case Some(st) => st.lastObservedState
  }

  /** The last connect time when the status has one and it is not the zero time. */
  function LastConnect(c: CatalogSource): Option<string>
  {
    match c.connection
    case None => None
    case Some(st) => st.lastConnectTime
  }

  /** A listing row as the source renders it; None where rendering dereferences a nil connection state. */
  function RowAsWritten(c: CatalogSource): Option<string>
  {
    match ObservedStateAsWritten(c)
    case None => None
    case Some(state) => Some(Join([c.name, c.namespace, c.sourceType, c.displayName, state], TAB))
  }

  /** A CatalogSource whose status has no connection state cannot be rendered as written, whatever else it holds. */
  lemma RowAsWrittenFailsWithoutConnection(c: CatalogSource)
    ensures RowAsWritten(c).None? <==> c.connection.None?
  {
  }

  /** The columns of one listing row. */
  function Fields(c: CatalogSource): seq<string>
  {
    [c.name, c.namespace, c.sourceType, c.displayName, ObservedState(c)]
  }

  /** A listing row; wherever the source's rendering succeeds, it is this row. */
  function Row(c: CatalogSource): (row: string)
    ensures c.connection.Some? ==> RowAsWritten(c) == Some(row)
  {
    Join(Fields(c), TAB)
  }

  /** The columns of every listing row, in list order. */
  function Cells(items: seq<CatalogSource>): (cells: seq<seq<string>>)
    ensures |cells| == |items| && forall i :: 0 <= i < |items| ==> cells[i] == Fields(items[i])
  {
    seq(|items|, i requires 0 <= i < |items| => Fields(items[i]))
  }

  /** The rows the listing loop writes as the source renders them; None once a row dereferences a nil connection state. */
  function RowsAsWritten(items: seq<CatalogSource>): (rows: Option<seq<string>>)
    ensures rows.None? <==> exists i :: 0 <= i < |items| && items[i].connection.None?
    ensures rows.Some? ==> |rows.value| == |items| && forall i :: 0 <= i < |items| ==> rows.value[i] == Row(items[i])
  {
    if items == [] then Some([])
    else
      match RowAsWritten(items[0])
      case None => None
      case Some(row) =>
        match RowsAsWritten(items[1..])
        case None =>
          assert forall i :: 0 <= i < |items| - 1 ==> items[1..][i] == items[i + 1];
          None
        case Some(rest) => Some([row] + rest)
  }

  function ListingLines(ns: string, items: seq<CatalogSource>): seq<string>
  {
    Table(Title(ns), NONE_FOUND, COLUMNS, Cells(items))
  }

  /** The payload list_catalog_sources answers. */
  function Listing(client: OlmClient, params: map<string, string>): ToolResult
  {
    var ns := Namespace(params, DEFAULT_NAMESPACE);
    match client.listCatalogSources(ns)
    case Err(e) => ErrorResult(LIST_ERROR + e)
    case Ok(items) => TextResult(Lines(ListingLines(ns, items)))
  }

  /**
   * What list_catalog_sources answers as the source is written: None where
   * the loop dereferences a nil connection state and panics. Over HTTP the
   * request then gets no response and its connection is closed; over stdio
   * the process ends.
   * Wherever it answers, it answers the corrected listing.
   */
  function ListingAsWritten(client: OlmClient, params: map<string, string>): (r: Option<ToolResult>)
    ensures var listed := client.listCatalogSources(Namespace(params, DEFAULT_NAMESPACE));
      r.None? <==> listed.Ok? && exists i :: 0 <= i < |listed.value| && listed.value[i].connection.None?
    ensures r.Some? ==> r.value == Listing(client, params)
  {
    var ns := Namespace(params, DEFAULT_NAMESPACE);
    match client.listCatalogSources(ns)
    case Err(e) => Some(ErrorResult(LIST_ERROR + e))
    case Ok(items) =>
      if items == [] then
        assert ListingLines(ns, items) == [Title(ns), "", NONE_FOUND];
        Some(TextResult(Lines([Title(ns), "", NONE_FOUND])))
      else
        match RowsAsWritten(items)
        case None => None
        case Some(rows) =>
          assert rows == Rows(Cells(items)) && Cells(items) != [];
          assert ListingLines(ns, items) == [Title(ns), "", Join(COLUMNS, TAB)] + rows;
          Some(TextResult(Lines([Title(ns), "", Join(COLUMNS, TAB)] + rows)))
  }

  /** ListCatalogSources: list in the namespace, then render one row per item with a builder. */
  method ListCatalogSources(client: OlmClient, params: map<string, string>) returns (r: Result<ToolResult>)
    ensures r == Ok(Listing(client, params))
  {
    var namespace := Namespace(params, DEFAULT_NAMESPACE);
    var catalogs := client.listCatalogSources(namespace);
    if catalogs.Err? {
      return Ok(ErrorResult(LIST_ERROR + catalogs.error));
    }
    var items := catalogs.value;
    ghost var ls := ListingLines(namespace, items);
    TableShape(Title(namespace), NONE_FOUND, COLUMNS, Cells(items));
    var result := Title(namespace) + "\n\n";
    if |items| == 0 {
      result := result + NONE_FOUND + "\n";
    } else {
      result := result + Join(COLUMNS, TAB) + "\n";
      for i := 0 to |items|
        invariant result == Lines(ls[..3 + i])
      {
        LinesSnoc(ls, 3 + i);
        result := result + Join(Fields(items[i]), TAB) + "\n";
      }
    }
    assert ls[..3 + |items|] == ls;
    return Ok(TextResult(result));
  }

  /**
   * A listing reads back: title, blank line, the header's column names, then
   * exactly one row per CatalogSource in list order, splitting at tabs into its
   * columns, including the sources whose status has no connection state.
   */
  lemma ListingReadsBack(ns: string, items: seq<CatalogSource>)
    requires NL !in ns
    requires forall i :: 0 <= i < |items| ==> Plain(Fields(items[i]))
    ensures var lines := SplitLines(Lines(ListingLines(ns, items)));
      && (items == [] ==> lines == [Title(ns), "", NONE_FOUND])
      && (items != [] ==>
            && |lines| == 3 + |items| && lines[..2] == [Title(ns), ""]
            && Split(lines[2], TAB) == COLUMNS
            && forall i :: 0 <= i < |items| ==> Split(lines[3 + i], TAB) == Fields(items[i]))
  {
    TitleIsOneLine(ns);
    TableReadsBack(Title(ns), NONE_FOUND, COLUMNS, Cells(items));
  }

  /**
   * The lines above the JSON block of a get_catalog_source answer: the "Last
   * Observed" line only for a non-zero last connect time, the "Image" and
   * "Address" lines only for a source of type exactly GRPC.
   */
  function DetailHead(ns: string, name: string, c: CatalogSource): (head: seq<string>)
    ensures var k := if LastConnect(c).Some? then 1 else 0;
      && |head| == 11 + k + (if c.sourceType == GRPC then 2 else 0)
      && head[0] == HEADING + ns + "/" + name
      && head[8] == CONNECTION_STATE_LABEL + ObservedState(c)
      && (LastConnect(c).Some? ==> head[9] == LAST_OBSERVED_LABEL + LastConnect(c).value)
      && head[9 + k] == ""
      && (c.sourceType == GRPC ==> head[10 + k] == IMAGE_LABEL + c.image && head[11 + k] == ADDRESS_LABEL + c.address)
      && head[|head| - 1] == ""
  {
    [ HEADING + ns + "/" + name, "",
      BASIC_INFO,
      NAME_LABEL + c.name,
      NAMESPACE_LABEL + c.namespace,
      DISPLAY_NAME_LABEL + c.displayName,
      SOURCE_TYPE_LABEL + c.sourceType,
      PUBLISHER_LABEL + c.publisher,
      CONNECTION_STATE_LABEL + ObservedState(c) ]
    + (match LastConnect(c) case Some(t) => [LAST_OBSERVED_LABEL + t] case None => [])
    + [""]
    + (if c.sourceType == GRPC then [IMAGE_LABEL + c.image, ADDRESS_LABEL + c.address] else [])
    + [""]
  }

  /**
   * The lines above the JSON block as the source writes them: the connection
   * state and the last connect time are read through the connection-state
   * pointer, so there are none when the status has no connection state.
   */
  function DetailHeadAsWritten(ns: string, name: string, c: CatalogSource): (head: Option<seq<string>>)
    ensures head.None? <==> c.connection.None?
    ensures head.Some? ==> head.value == DetailHead(ns, name, c)
  {
    match c.connection
    case None => None
    case Some(st) =>
      Some([ HEADING + ns + "/" + name, "",
             BASIC_INFO,
             NAME_LABEL + c.name,
             NAMESPACE_LABEL + c.namespace,
             DISPLAY_NAME_LABEL + c.displayName,
             SOURCE_TYPE_LABEL + c.sourceType,
             PUBLISHER_LABEL + c.publisher,
             CONNECTION_STATE_LABEL + st.lastObservedState ]
           + (match st.lastConnectTime case Some(t) => [LAST_OBSERVED_LABEL + t] case None => [])
           + [""]
           + (if c.sourceType == GRPC then [IMAGE_LABEL + c.image, ADDRESS_LABEL + c.address] else [])
           + [""])
  }

  /** GetCatalogSource: check the name, fetch, marshal, render. Every failure is reported inside the payload. */
  function GetCatalogSource(client: OlmClient, params: map<string, string>): (r: Result<ToolResult>)
    ensures r.Ok? && SingleText(r.value)
    ensures Param(params, "name") == "" ==> r.value == ErrorResult(NAME_REQUIRED)
    ensures Param(params, "name") != "" && client.getCatalogSource(Namespace(params, DEFAULT_NAMESPACE), Param(params, "name")).Err? ==>
      r.value == ErrorResult(GET_ERROR + Param(params, "name") + QUOTED_END
                             + client.getCatalogSource(Namespace(params, DEFAULT_NAMESPACE), Param(params, "name")).error)
    ensures var ns, name := Namespace(params, DEFAULT_NAMESPACE), Param(params, "name");
      name != "" && client.getCatalogSource(ns, name).Ok? ==>
        match client.getCatalogSource(ns, name).value.json
        case Json(j) => r.value == TextResult(Lines(Detail(DetailHead(ns, name, client.getCatalogSource(ns, name).value), j)))
        case MarshalError(e) => r.value == ErrorResult(MARSHAL_ERROR + e)
    ensures var ns, name := Namespace(params, DEFAULT_NAMESPACE), Param(params, "name");
      !r.value.isError <==> name != "" && client.getCatalogSource(ns, name).Ok? && client.getCatalogSource(ns, name).value.json.Json?
    ensures !r.value.isError ==>
      StartsWith(r.value.content[0].text,
                 HEADING + Namespace(params, DEFAULT_NAMESPACE) + "/" + Param(params, "name") + "\n")
  {
    var ns := Namespace(params, DEFAULT_NAMESPACE);
    var name := Param(params, "name");
    if name == "" then Ok(ErrorResult(NAME_REQUIRED))
    else
      match client.getCatalogSource(ns, name)
      case Err(e) => Ok(ErrorResult(GET_ERROR + name + QUOTED_END + e))
      case Ok(c) =>
        match c.json
        case MarshalError(e) => Ok(ErrorResult(MARSHAL_ERROR + e))
        case Json(j) =>
          DetailStartsWith(DetailHead(ns, name, c), j);
          Ok(TextResult(Lines(Detail(DetailHead(ns, name, c), j))))
  }

  /**
   * What get_catalog_source answers as the source is written: None exactly
   * when a fetched and marshalled source has no connection state, where
   * rendering dereferences nil. Wherever it answers, it answers GetCatalogSource.
   */
  function GetAsWritten(client: OlmClient, params: map<string, string>): (r: Option<ToolResult>)
    ensures var ns, name := Namespace(params, DEFAULT_NAMESPACE), Param(params, "name");
      r.None? <==> && name != "" && client.getCatalogSource(ns, name).Ok?
                   && client.getCatalogSource(ns, name).value.json.Json?
                   && client.getCatalogSource(ns, name).value.connection.None?
    ensures r.Some? ==> r.value == GetCatalogSource(client, params).value
  {
    var ns := Namespace(params, DEFAULT_NAMESPACE);
    var name := Param(params, "name");
    if name == "" then Some(ErrorResult(NAME_REQUIRED))
    else
      match client.getCatalogSource(ns, name)
      case Err(e) => Some(ErrorResult(GET_ERROR + name + QUOTED_END + e))
      case Ok(c) =>
        match c.json
        case MarshalError(e) => Some(ErrorResult(MARSHAL_ERROR + e))
        case Json(j) =>
          match DetailHeadAsWritten(ns, name, c)
          case None => None
          case Some(head) => Some(TextResult(Lines(Detail(head, j))))
  }

  /** With no name, get_catalog_source answers the same whatever the backing client would say: it is never asked. */
  lemma GetWithoutNameIgnoresClient(c1: OlmClient, c2: OlmClient, params: map<string, string>)
    requires Param(params, "name") == ""
    ensures GetCatalogSource(c1, params) == GetCatalogSource(c2, params)
  {
  }
}
