/** pkg/tools/csv.go: the list_csvs and get_csv handlers. */
module CsvTools {
  import opened Wrappers
  import opened Types
  import opened Text
  import opened ToolSupport

  const DEFAULT_NAMESPACE := "default"
  /** The listing header: these column names, tab-separated. */
  const COLUMNS := ["NAME", "NAMESPACE", "PHASE", "VERSION", "REPLACES"]
  const NONE_FOUND := "No ClusterServiceVersions found."
  const TITLE := "ClusterServiceVersions in namespace '"
  const LIST_ERROR := "Error listing ClusterServiceVersions: "
  const GET_ERROR := "Error getting ClusterServiceVersion '"
  const MARSHAL_ERROR := "Error marshaling CSV to JSON: "
  const HEADING := "ClusterServiceVersion: "
  const VERSION_LABEL := "  Version: "
  const REPLACES_LABEL := "  Replaces: "
  const DESCRIPTION_LABEL := "  Description: "

  function Title(ns: string): string
  {
    TITLE + ns + TITLE_END
  }

  /** The title is one line when the namespace is. */
  lemma TitleIsOneLine(ns: string)
    requires NL !in ns
    ensures NL !in Title(ns)
  {
    assert forall k :: 0 <= k < |TITLE| ==> TITLE[k] != NL;
    assert forall k :: 0 <= k < |TITLE_END| ==> TITLE_END[k] != NL;
  }

  /** The columns of one listing row. */
  function Fields(c: Csv): seq<string>
  {
    [c.name, c.namespace, c.phase, c.version, c.replacesCsv]
  }

  function Row(c: Csv): string
  {
    Join(Fields(c), TAB)
  }

  /** The columns of every listing row, in list order. */
  function Cells(items: seq<Csv>): (cells: seq<seq<string>>)
    ensures |cells| == |items| && forall i :: 0 <= i < |items| ==> cells[i] == Fields(items[i])
  {
    seq(|items|, i requires 0 <= i < |items| => Fields(items[i]))
  }

  function ListingLines(ns: string, items: seq<Csv>): seq<string>
  {
    Table(Title(ns), NONE_FOUND, COLUMNS, Cells(items))
  }

  /** The payload list_csvs answers. */
  function Listing(client: OlmClient, params: map<string, string>): ToolResult
  {
    var ns := Namespace(params, DEFAULT_NAMESPACE);
    match client.listCsvs(ns)
    case Err(e) => ErrorResult(LIST_ERROR + e)
    case Ok(items) => TextResult(Lines(ListingLines(ns, items)))
  }

  /** ListCSVs: list in the namespace, then render one row per item with a builder. */
  method ListCSVs(client: OlmClient, params: map<string, string>) returns (r: Result<ToolResult>)
    ensures r == Ok(Listing(client, params))
  {
    var namespace := Namespace(params, DEFAULT_NAMESPACE);
    var csvs := client.listCsvs(namespace);
    if csvs.Err? {
      return Ok(ErrorResult(LIST_ERROR + csvs.error));
    }
    var items := csvs.value;
    ghost var ls := ListingLines(namespace, items);
    TableShape(Title(namespace), NONE_FOUND, COLUMNS, Cells(items));
    var result := Title(namespace) + "\n\n";
    if |items| == 0 {
      result := result + NONE_FOUND + "\n";
    } else {
      result := result + Join(COLUMNS, TAB) + "\n";
      for i := 0 to |items|
        invariant result == Lines(ls[..3 + i])
      {
        LinesSnoc(ls, 3 + i);
        result := result + Row(items[i]) + "\n";
      }
    }
    assert ls[..3 + |items|] == ls;
    return Ok(TextResult(result));
  }

  /**
   * A listing reads back: title, blank line, the header's column names, then exactly one row per
   * ClusterServiceVersion in list order, splitting at tabs into its columns.
   */
  lemma ListingReadsBack(ns: string, items: seq<Csv>)
    requires NL !in ns
    requires forall i :: 0 <= i < |items| ==> Plain(Fields(items[i]))
    ensures var lines := SplitLines(Lines(ListingLines(ns, items)));
      && (items == [] ==> lines == [Title(ns), "", NONE_FOUND])
      && (items != [] ==>
            && |lines| == 3 + |items| && lines[..2] == [Title(ns), ""]
            && Split(lines[2], TAB) == COLUMNS
            && forall i :: 0 <= i < |items| ==> Split(lines[3 + i], TAB) == Fields(items[i]))
  {
    TitleIsOneLine(ns);
    TableReadsBack(Title(ns), NONE_FOUND, COLUMNS, Cells(items));
  }

  /** The lines above the JSON block of a get_csv answer. */
  function DetailHead(ns: string, name: string, c: Csv): seq<string>
  {
    [ HEADING + ns + "/" + name, "",
      BASIC_INFO,
      NAME_LABEL + c.name,
      NAMESPACE_LABEL + c.namespace,
      PHASE_LABEL + c.phase,
      VERSION_LABEL + c.version,
      REPLACES_LABEL + c.replacesCsv,
      DISPLAY_NAME_LABEL + c.displayName,
      DESCRIPTION_LABEL + c.description, "" ]
  }

  /** GetCSV: check the name, fetch, marshal, render. Every failure is reported inside the payload. */
  function GetCSV(client: OlmClient, params: map<string, string>): (r: Result<ToolResult>)
    ensures r.Ok? && SingleText(r.value)
    ensures Param(params, "name") == "" ==> r.value == ErrorResult(NAME_REQUIRED)
    ensures Param(params, "name") != "" && client.getCsv(Namespace(params, DEFAULT_NAMESPACE), Param(params, "name")).Err? ==>
      r.value == ErrorResult(GET_ERROR + Param(params, "name") + QUOTED_END
                             + client.getCsv(Namespace(params, DEFAULT_NAMESPACE), Param(params, "name")).error)
    ensures var ns, name := Namespace(params, DEFAULT_NAMESPACE), Param(params, "name");
      name != "" && client.getCsv(ns, name).Ok? ==>
        match client.getCsv(ns, name).value.json
        case Json(j) => r.value == TextResult(Lines(Detail(DetailHead(ns, name, client.getCsv(ns, name).value), j)))
        case MarshalError(e) => r.value == ErrorResult(MARSHAL_ERROR + e)
    ensures var ns, name := Namespace(params, DEFAULT_NAMESPACE), Param(params, "name");
      !r.value.isError <==> name != "" && client.getCsv(ns, name).Ok? && client.getCsv(ns, name).value.json.Json?
    ensures !r.value.isError ==>
      StartsWith(r.value.content[0].text,
                 HEADING + Namespace(params, DEFAULT_NAMESPACE) + "/" + Param(params, "name") + "\n")
  {
    var ns := Namespace(params, DEFAULT_NAMESPACE);
    var name := Param(params, "name");
    if name == "" then Ok(ErrorResult(NAME_REQUIRED))
    else
      match client.getCsv(ns, name)
      case Err(e) => Ok(ErrorResult(GET_ERROR + name + QUOTED_END + e))
      case Ok(c) =>
        match c.json
        case MarshalError(e) => Ok(ErrorResult(MARSHAL_ERROR + e))
        case Json(j) =>
          DetailStartsWith(DetailHead(ns, name, c), j);
          Ok(TextResult(Lines(Detail(DetailHead(ns, name, c), j))))
  }

  /** With no name, get_csv answers the same whatever the backing client would say: it is never asked. */
  lemma GetWithoutNameIgnoresClient(c1: OlmClient, c2: OlmClient, params: map<string, string>)
    requires Param(params, "name") == ""
    ensures GetCSV(c1, params) == GetCSV(c2, params)
  {
  }
}
