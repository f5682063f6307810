/** pkg/tools/installplan.go: the list_install_plans and get_install_plan handlers. */
module InstallPlanTools {
  import opened Wrappers
  import opened Types
  import opened Text
  import opened ToolSupport

  const DEFAULT_NAMESPACE := "default"
  /** The listing header: these column names, tab-separated. */
  const COLUMNS := ["NAME", "NAMESPACE", "APPROVAL", "APPROVED", "PHASE"]
  const NONE_FOUND := "No InstallPlans found."
  const TITLE := "InstallPlans in namespace '"
  const LIST_ERROR := "Error listing InstallPlans: "
  const GET_ERROR := "Error getting InstallPlan '"
  const MARSHAL_ERROR := "Error marshaling InstallPlan to JSON: "
  const HEADING := "InstallPlan: "
  const APPROVAL_LABEL := "  Approval: "
  const APPROVED_LABEL := "  Approved: "
  const CSV_SECTION := "ClusterServiceVersions to install:"
  const PLAN_SECTION := "Planned Resources:"

  function Title(ns: string): string
  {
    TITLE + ns + TITLE_END
  }

  /** The title is one line when the namespace is. */
  lemma TitleIsOneLine(ns: string)
    requires NL !in ns
    ensures NL !in Title(ns)
  {
    assert forall k :: 0 <= k < |TITLE| ==> TITLE[k] != NL;
    assert forall k :: 0 <= k < |TITLE_END| ==> TITLE_END[k] != NL;
  }

  /** Go's %t verb. */
  function BoolText(b: bool): string
  {
    if b then "true" else "false"
  }

  /** The columns of one listing row. */
  function Fields(ip: InstallPlan): seq<string>
  {
    [ip.name, ip.namespace, ip.approval, BoolText(ip.approved), ip.phase]
  }

  function Row(ip: InstallPlan): string
  {
    Join(Fields(ip), TAB)
  }

  /** The columns of every listing row, in list order. */
  function Cells(items: seq<InstallPlan>): (cells: seq<seq<string>>)
    ensures |cells| == |items| && forall i :: 0 <= i < |items| ==> cells[i] == Fields(items[i])
  {
    seq(|items|, i requires 0 <= i < |items| => Fields(items[i]))
  }

  function ListingLines(ns: string, items: seq<InstallPlan>): seq<string>
  {
    Table(Title(ns), NONE_FOUND, COLUMNS, Cells(items))
  }

  /** The payload list_install_plans answers. */
  function Listing(client: OlmClient, params: map<string, string>): ToolResult
  {
    var ns := Namespace(params, DEFAULT_NAMESPACE);
    match client.listInstallPlans(ns)
    case Err(e) => ErrorResult(LIST_ERROR + e)
    case Ok(items) => TextResult(Lines(ListingLines(ns, items)))
  }

  /** ListInstallPlans: list in the namespace, then render one row per item with a builder. */
  method ListInstallPlans(client: OlmClient, params: map<string, string>) returns (r: Result<ToolResult>)
    ensures r == Ok(Listing(client, params))
  {
    var namespace := Namespace(params, DEFAULT_NAMESPACE);
    var installPlans := client.listInstallPlans(namespace);
    if installPlans.Err? {
      return Ok(ErrorResult(LIST_ERROR + installPlans.error));
    }
    var items := installPlans.value;
    ghost var ls := ListingLines(namespace, items);
    TableShape(Title(namespace), NONE_FOUND, COLUMNS, Cells(items));
    var result := Title(namespace) + "\n\n";
    if |items| == 0 {
      result := result + NONE_FOUND + "\n";
    } else {
      result := result + Join(COLUMNS, TAB) + "\n";
      for i := 0 to |items|
        invariant result == Lines(ls[..3 + i])
      {
        LinesSnoc(ls, 3 + i);
        result := result + Row(items[i]) + "\n";
      }
    }
    assert ls[..3 + |items|] == ls;
    return Ok(TextResult(result));
  }

  /**
   * A listing reads back: title, blank line, the header's column names, then
   * exactly one row per InstallPlan in list order, splitting at tabs into its
   * columns, with Approved as "true" or "false".
   */
  lemma ListingReadsBack(ns: string, items: seq<InstallPlan>)
    requires NL !in ns
    requires forall i :: 0 <= i < |items| ==> Plain(Fields(items[i]))
    ensures var lines := SplitLines(Lines(ListingLines(ns, items)));
      && (items == [] ==> lines == [Title(ns), "", NONE_FOUND])
      && (items != [] ==>
            && |lines| == 3 + |items| && lines[..2] == [Title(ns), ""]
            && Split(lines[2], TAB) == COLUMNS
            && forall i :: 0 <= i < |items| ==>
                 Split(lines[3 + i], TAB) == Fields(items[i]) && Split(lines[3 + i], TAB)[3] == BoolText(items[i].approved))
  {
    TitleIsOneLine(ns);
    TableReadsBack(Title(ns), NONE_FOUND, COLUMNS, Cells(items));
  }

  /** The fixed lines at the top of a get_install_plan answer. */
  function BasicInfo(ns: string, name: string, ip: InstallPlan): seq<string>
  {
    [ HEADING + ns + "/" + name, "",
      BASIC_INFO,
      NAME_LABEL + ip.name,
      NAMESPACE_LABEL + ip.namespace,
      APPROVAL_LABEL + ip.approval,
      APPROVED_LABEL + BoolText(ip.approved),
      PHASE_LABEL + ip.phase, "" ]
  }

  function CsvLine(csvName: string): string
  {
    "  - " + csvName
  }

  function StepLine(step: Step): string
  {
    "  - " + step.kind + ": " + step.name + "/" + step.manifest + " (Status: " + step.status + ")"
  }

  /**
   * The "ClusterServiceVersions to install" section: present only for a
   * non-empty list, then one line per name, in order, and a blank line.
   */
  function CsvSection(csvNames: seq<string>): (section: seq<string>)
    ensures csvNames == [] ==> section == []
    ensures csvNames != [] ==>
      && |section| == |csvNames| + 2
      && section[0] == CSV_SECTION && section[|section| - 1] == ""
      && forall i :: 0 <= i < |csvNames| ==> section[1 + i] == CsvLine(csvNames[i])
  {
    if csvNames == [] then []
    else [CSV_SECTION] + seq(|csvNames|, i requires 0 <= i < |csvNames| => CsvLine(csvNames[i])) + [""]
  }

  /**
   * The "Planned Resources" section: present only for a non-empty plan, then
   * one line per step, in order, and a blank line.
   */
  function PlanSection(plan: seq<Step>): (section: seq<string>)
    ensures plan == [] ==> section == []
    ensures plan != [] ==>
      && |section| == |plan| + 2
      && section[0] == PLAN_SECTION && section[|section| - 1] == ""
      && forall i :: 0 <= i < |plan| ==> section[1 + i] == StepLine(plan[i])
  {
    if plan == [] then []
    else [PLAN_SECTION] + seq(|plan|, i requires 0 <= i < |plan| => StepLine(plan[i])) + [""]
  }

  /** The lines above the JSON block of a get_install_plan answer. */
  function DetailHead(ns: string, name: string, ip: InstallPlan): seq<string>
  {
    BasicInfo(ns, name, ip) + CsvSection(ip.csvNames) + PlanSection(ip.plan)
  }

  /** The payload get_install_plan answers. */
  function Detailed(client: OlmClient, params: map<string, string>): (r: ToolResult)
    ensures SingleText(r)
    ensures Param(params, "name") == "" ==> r == ErrorResult(NAME_REQUIRED)
    ensures Param(params, "name") != "" && client.getInstallPlan(Namespace(params, DEFAULT_NAMESPACE), Param(params, "name")).Err? ==>
      r == ErrorResult(GET_ERROR + Param(params, "name") + QUOTED_END
                       + client.getInstallPlan(Namespace(params, DEFAULT_NAMESPACE), Param(params, "name")).error)
    ensures var ns, name := Namespace(params, DEFAULT_NAMESPACE), Param(params, "name");
      name != "" && client.getInstallPlan(ns, name).Ok? ==>
        match client.getInstallPlan(ns, name).value.json
        case Json(j) => r == TextResult(Lines(Detail(DetailHead(ns, name, client.getInstallPlan(ns, name).value), j)))
        case MarshalError(e) => r == ErrorResult(MARSHAL_ERROR + e)
    ensures var ns, name := Namespace(params, DEFAULT_NAMESPACE), Param(params, "name");
      !r.isError <==> name != "" && client.getInstallPlan(ns, name).Ok? && client.getInstallPlan(ns, name).value.json.Json?
    ensures !r.isError ==>
      StartsWith(r.content[0].text, HEADING + Namespace(params, DEFAULT_NAMESPACE) + "/" + Param(params, "name") + "\n")
  {
    var ns := Namespace(params, DEFAULT_NAMESPACE);
    var name := Param(params, "name");
    if name == "" then ErrorResult(NAME_REQUIRED)
    else
      match client.getInstallPlan(ns, name)
      case Err(e) => ErrorResult(GET_ERROR + name + QUOTED_END + e)
      case Ok(ip) =>
        match ip.json
        case MarshalError(e) => ErrorResult(MARSHAL_ERROR + e)
        case Json(j) =>
          DetailStartsWith(DetailHead(ns, name, ip), j);
          TextResult(Lines(Detail(DetailHead(ns, name, ip), j)))
  }

  /** GetInstallPlan: check the name, fetch, marshal, then render with Describe. */
  method GetInstallPlan(client: OlmClient, params: map<string, string>) returns (r: Result<ToolResult>)
    ensures r == Ok(Detailed(client, params))
  {
    var namespace := Namespace(params, DEFAULT_NAMESPACE);
    var name := Param(params, "name");
    if name == "" {
      return Ok(ErrorResult(NAME_REQUIRED));
    }
    var fetched := client.getInstallPlan(namespace, name);
    if fetched.Err? {
      return Ok(ErrorResult(GET_ERROR + name + QUOTED_END + fetched.error));
    }
    var ip := fetched.value;
    if ip.json.MarshalError? {
      return Ok(ErrorResult(MARSHAL_ERROR + ip.json.err));
    }
    var text := Describe(namespace, name, ip, ip.json.text);
    return Ok(TextResult(text));
  }

  /**
   * The text of a successful get_install_plan answer, written in order: the
   * basic info, the two optional sections and the JSON block.
   */
  method Describe(namespace: string, name: string, ip: InstallPlan, jsonData: string) returns (result: string)
    ensures result == Lines(Detail(DetailHead(namespace, name, ip), jsonData))
  {
    result := Lines(BasicInfo(namespace, name, ip));
    result := WriteCsvSection(result, ip.csvNames);
    result := WritePlanSection(result, ip.plan);
    LinesAppend(BasicInfo(namespace, name, ip), CsvSection(ip.csvNames));
    LinesAppend(BasicInfo(namespace, name, ip) + CsvSection(ip.csvNames), PlanSection(ip.plan));
    ghost var head := DetailHead(namespace, name, ip);
    assert result == Lines(head);
    result := result + JSON_HEADING + "\n";
    result := result + FENCE_OPEN + "\n";
    result := result + jsonData;
    result := result + "\n" + FENCE_CLOSE + "\n";
    DetailText(head, jsonData);
  }

  /** Appends the CSV section to the text written so far: a heading, one line per name, a blank line. */
  method WriteCsvSection(sb: string, csvNames: seq<string>) returns (result: string)
    ensures result == sb + Lines(CsvSection(csvNames))
  {
    result := sb;
    ghost var cs := CsvSection(csvNames);
    if |csvNames| > 0 {
      assert cs[..0] == [];
      LinesSnocAfter(sb, cs, 0);
      result := result + CSV_SECTION + "\n";
      for i := 0 to |csvNames|
        invariant result == sb + Lines(cs[..1 + i])
      {
        LinesSnocAfter(sb, cs, 1 + i);
        result := result + CsvLine(csvNames[i]) + "\n";
      }
      LinesSnocAfter(sb, cs, 1 + |csvNames|);
      result := result + "\n";
      assert cs[..2 + |csvNames|] == cs;
    }
  }

  /** Appends the plan section to the text written so far: a heading, one line per step, a blank line. */
  method WritePlanSection(sb: string, plan: seq<Step>) returns (result: string)
    ensures result == sb + Lines(PlanSection(plan))
  {
    result := sb;
    ghost var ps := PlanSection(plan);
    if |plan| > 0 {
      assert ps[..0] == [];
      LinesSnocAfter(sb, ps, 0);
      result := result + PLAN_SECTION + "\n";
      for i := 0 to |plan|
        invariant result == sb + Lines(ps[..1 + i])
      {
        LinesSnocAfter(sb, ps, 1 + i);
        result := result + StepLine(plan[i]) + "\n";
      }
      LinesSnocAfter(sb, ps, 1 + |plan|);
      result := result + "\n";
      assert ps[..2 + |plan|] == ps;
    }
  }

  /** With no name, get_install_plan answers the same whatever the backing client would say: it is never asked. */
  lemma GetWithoutNameIgnoresClient(c1: OlmClient, c2: OlmClient, params: map<string, string>)
    requires Param(params, "name") == ""
    ensures Detailed(c1, params) == Detailed(c2, params)
  {
  }
}
