/**
 * The eight tool handlers as both dispatchers see them: the tool names the
 * switches of pkg/server/mcp.go and pkg/server/server.go match on, the
 * namespace each handler falls back to, and the call itself.
 */
module Handlers {
  import opened Wrappers
  import opened Types
  import opened ToolSupport
  import CsvTools
  import SubscriptionTools
  import CatalogTools
  import InstallPlanTools

  datatype Tool =
    | ListCsvs | GetCsv
    | ListSubscriptions | GetSubscription
    | ListCatalogSources | GetCatalogSource
    | ListInstallPlans | GetInstallPlan

  /** Every tool, in the order the tool registry lists them. */
  const AllTools: seq<Tool> := [
    ListCsvs, GetCsv, ListSubscriptions, GetSubscription,
    ListCatalogSources, GetCatalogSource, ListInstallPlans, GetInstallPlan]

  /** The name a client calls the tool by. */
  function Name(t: Tool): string
  {
    match t
    case ListCsvs => "list_csvs"
    case GetCsv => "get_csv"
    case ListSubscriptions => "list_subscriptions"
    case GetSubscription => "get_subscription"
    case ListCatalogSources => "list_catalog_sources"
    case GetCatalogSource => "get_catalog_source"
    case ListInstallPlans => "list_install_plans"
    case GetInstallPlan => "get_install_plan"
  }

  /** A get_* tool, which needs a `name` argument. */
  predicate IsGet(t: Tool)
  {
    t.GetCsv? || t.GetSubscription? || t.GetCatalogSource? || t.GetInstallPlan?
  }

  /** The tool a name selects, if any: the case arms of the dispatch switches. */
  function ToolFor(name: string): (t: Option<Tool>)
    ensures t.Some? ==> Name(t.value) == name
    ensures t.None? ==> forall u: Tool :: Name(u) != name
  {
    match name
    case "list_csvs" => Some(ListCsvs)
    case "get_csv" => Some(GetCsv)
    case "list_subscriptions" => Some(ListSubscriptions)
    case "get_subscription" => Some(GetSubscription)
    case "list_catalog_sources" => Some(ListCatalogSources)
    case "get_catalog_source" => Some(GetCatalogSource)
    case "list_install_plans" => Some(ListInstallPlans)
    case "get_install_plan" => Some(GetInstallPlan)
    case _ => None
  }

  /** Names pick tools one to one: looking up a tool's name finds that tool. */
  lemma ToolForName(t: Tool)
    ensures ToolFor(Name(t)) == Some(t)
  {
  }

  /** The registry order lists every tool. */
  lemma AllToolsComplete()
    ensures forall t: Tool :: t in AllTools
  {
    forall t: Tool
      ensures t in AllTools
    {
      var k :=
        match t
        case ListCsvs => 0
        case GetCsv => 1
        case ListSubscriptions => 2
        case GetSubscription => 3
        case ListCatalogSources => 4
        case GetCatalogSource => 5
        case ListInstallPlans => 6
        case GetInstallPlan => 7;
      assert AllTools[k] == t;
    }
  }

  /** The registry order lists each tool once. */
  lemma AllToolsDistinct()
    ensures forall i, j :: 0 <= i < j < |AllTools| ==> AllTools[i] != AllTools[j]
  {
  }

  /** No two tools share a name. */
  lemma NamesDistinct(a: Tool, b: Tool)
    requires a != b
    ensures Name(a) != Name(b)
  {
    ToolForName(a);
    ToolForName(b);
  }

  /** The names the dispatchers route are exactly the names of the default toolset table. */
  lemma RoutedNamesAreDefaultToolNames()
    ensures (set t | t in AllTools :: Name(t)) == DefaultToolNames()
  {
    DefaultToolNamesAre();
    var names := set t | t in AllTools :: Name(t);
    var expected := {
      "list_csvs", "get_csv", "list_subscriptions", "get_subscription",
      "list_catalog_sources", "get_catalog_source", "list_install_plans", "get_install_plan"};
    assert forall n :: n in names ==> n in expected;
    assert Name(ListCsvs) in names && Name(GetCsv) in names;
    assert Name(ListSubscriptions) in names && Name(GetSubscription) in names;
    assert Name(ListCatalogSources) in names && Name(GetCatalogSource) in names;
    assert Name(ListInstallPlans) in names && Name(GetInstallPlan) in names;
    assert names == expected;
  }

  /** The namespace a handler uses when the caller gives none. */
  function DefaultNamespace(t: Tool): string
  {
    match t
    case ListCsvs | GetCsv => CsvTools.DEFAULT_NAMESPACE
    case ListSubscriptions | GetSubscription => SubscriptionTools.DEFAULT_NAMESPACE
    case ListCatalogSources | GetCatalogSource => CatalogTools.DEFAULT_NAMESPACE
    case ListInstallPlans | GetInstallPlan => InstallPlanTools.DEFAULT_NAMESPACE
  }

  /** Only the CatalogSource tools fall back to "olm"; all the others to "default". */
  lemma DefaultNamespaces(t: Tool)
    ensures DefaultNamespace(t) == (if t.ListCatalogSources? || t.GetCatalogSource? then "olm" else "default")
  {
  }

  /** What a handler returns for the given string arguments: a payload, or a Go error. */
  function Outcome(client: OlmClient, t: Tool, params: map<string, string>): Result<ToolResult>
  {
    match t
    case ListCsvs => Ok(CsvTools.Listing(client, params))
    case GetCsv => CsvTools.GetCSV(client, params)
    case ListSubscriptions => Ok(SubscriptionTools.Listing(client, params))
    case GetSubscription => SubscriptionTools.GetSubscription(client, params)
    case ListCatalogSources => Ok(CatalogTools.Listing(client, params))
    case GetCatalogSource => CatalogTools.GetCatalogSource(client, params)
    case ListInstallPlans => Ok(InstallPlanTools.Listing(client, params))
    case GetInstallPlan => Ok(InstallPlanTools.Detailed(client, params))
  }

  /** What each handler answers for given string arguments: a payload, or a Go error. */
  type Toolset = (Tool, map<string, string>) -> Result<ToolResult>

  /** `tools` answers exactly what the handlers of pkg/tools answer over the backing client. */
  ghost predicate HandlersOf(client: OlmClient, tools: Toolset)
  {
    forall t, params {:trigger Outcome(client, t, params)} :: tools(t, params) == Outcome(client, t, params)
  }

  /** The handlers of pkg/tools over the given backing client. */
  function ToolsetOf(client: OlmClient): Toolset
  {
    (t, params) => Outcome(client, t, params)
  }

  /** Every backing client has its toolset. */
  lemma ToolsetOfIsHandlers(client: OlmClient)
    ensures HandlersOf(client, ToolsetOf(client))
  {
  }

  /** The dispatch switch: run the selected handler. */
  method Run(client: OlmClient, ghost tools: Toolset, t: Tool, params: map<string, string>) returns (r: Result<ToolResult>)
    requires HandlersOf(client, tools)
    ensures r == tools(t, params)
  {
    match t {
      case ListCsvs => r := CsvTools.ListCSVs(client, params);
      case GetCsv => r := CsvTools.GetCSV(client, params);
      case ListSubscriptions => r := SubscriptionTools.ListSubscriptions(client, params);
      case GetSubscription => r := SubscriptionTools.GetSubscription(client, params);
      case ListCatalogSources => r := CatalogTools.ListCatalogSources(client, params);
      case GetCatalogSource => r := CatalogTools.GetCatalogSource(client, params);
      case ListInstallPlans => r := InstallPlanTools.ListInstallPlans(client, params);
      case GetInstallPlan => r := InstallPlanTools.GetInstallPlan(client, params);
    }
    assert r == Outcome(client, t, params);
  }

  /**
   * No handler ever returns a Go error: every failure of the backing client,
   * a missing name or a marshalling failure is reported inside a payload of
   * exactly one text block.
   */
  lemma OutcomeIsPayload(client: OlmClient, t: Tool, params: map<string, string>)
    ensures Outcome(client, t, params).Ok?
    ensures SingleText(Outcome(client, t, params).value)
  {
  }

  /**
   * A get_* tool without a name answers the missing-name error, and answers
   * it without consulting the backing client.
   */
  lemma GetWithoutName(c1: OlmClient, c2: OlmClient, t: Tool, params: map<string, string>)
    requires IsGet(t) && Param(params, "name") == ""
    ensures Outcome(c1, t, params) == Outcome(c2, t, params) == Ok(ErrorResult(NAME_REQUIRED))
  {
  }

  /**
   * Every handler reads its namespace the same way: the caller's when
   * non-empty, otherwise the tool's default. A list tool asks the backing
   * client for exactly that namespace.
   */
  lemma ListUsesNamespace(client: OlmClient, t: Tool, params: map<string, string>)
    ensures var ns := Namespace(params, DefaultNamespace(t));
      && (t == ListCsvs ==> (client.listCsvs(ns).Err? <==> Outcome(client, t, params).value.isError))
      && (t == ListSubscriptions ==> (client.listSubscriptions(ns).Err? <==> Outcome(client, t, params).value.isError))
      && (t == ListCatalogSources ==> (client.listCatalogSources(ns).Err? <==> Outcome(client, t, params).value.isError))
      && (t == ListInstallPlans ==> (client.listInstallPlans(ns).Err? <==> Outcome(client, t, params).value.isError))
  {
  }

  /** OutcomeIsPayload for a toolset given by its handlers. */
  lemma HandlersAnswerPayloads(client: OlmClient, tools: Toolset, t: Tool, params: map<string, string>)
    requires HandlersOf(client, tools)
    ensures tools(t, params).Ok? && SingleText(tools(t, params).value)
  {
    OutcomeIsPayload(client, t, params);
  }
}
