/** `DashboardService` (Signal9.Web/Services/DashboardService.cs): it fetches tenants,
    agents, statistics and activities from the two function apps and shapes them into
    the dashboard's view model. The HTTP calls are inputs: each fetch is a function from
    the URL the service builds to the reply the server gives. */
module Dashboard {
  import opened Common
  import opened Text
  import opened Guids
  import opened Models
  import opened ViewModels
  import opened TenantHierarchy
  import opened QueryStrings

  /** The service's two base URLs, fixed by its constructor. */
  datatype DashboardService = DashboardService(agentFunctionsUrl: string, webFunctionsUrl: string)

  const DefaultAgentFunctionsUrl: string := "https://localhost:7071"
  const DefaultWebFunctionsUrl: string := "https://localhost:7072"

  /** The constructor: each base URL is the configured setting, or the local default
      when the setting is missing. */
  function NewDashboardService(agentSetting: Option<string>, webSetting: Option<string>): (svc: DashboardService)
    ensures agentSetting.Some? ==> svc.agentFunctionsUrl == agentSetting.value
    ensures agentSetting.None? ==> svc.agentFunctionsUrl == DefaultAgentFunctionsUrl
    ensures webSetting.Some? ==> svc.webFunctionsUrl == webSetting.value
    ensures webSetting.None? ==> svc.webFunctionsUrl == DefaultWebFunctionsUrl
  {
    DashboardService(agentSetting.GetOr(DefaultAgentFunctionsUrl), webSetting.GetOr(DefaultWebFunctionsUrl))
  }

  // ---------------------------------------------------------------- URLs

  function HierarchyUrl(svc: DashboardService): string {
    svc.webFunctionsUrl + "/api/tenants/hierarchy"
  }

  /** The agents URL: the tenant filter is appended only when a tenant is given. */
  function AgentsUrl(svc: DashboardService, tenantId: Option<Guid>): string {
    if tenantId.Some? then svc.agentFunctionsUrl + "/api/agents" + "?tenantId=" + FormatD(tenantId.value)
    else svc.agentFunctionsUrl + "/api/agents"
  }

  function StatsUrl(svc: DashboardService, tenantId: Option<Guid>): string {
    if tenantId.Some? then svc.webFunctionsUrl + "/api/dashboard/stats" + "?tenantId=" + FormatD(tenantId.value)
    else svc.webFunctionsUrl + "/api/dashboard/stats"
  }

  /** The activities URL always carries the count. */
  function ActivitiesUrl(svc: DashboardService, tenantId: Option<Guid>, count: int): string {
    if tenantId.Some? then
      svc.webFunctionsUrl + "/api/activities" + "?tenantId=" + FormatD(tenantId.value) + "&count=" + IntToDecimal(count)
    else svc.webFunctionsUrl + "/api/activities" + "?count=" + IntToDecimal(count)
  }

  /** Neither a "D" GUID nor a decimal number holds a query delimiter. */
  lemma PlainValues(g: Guid, n: int)
    ensures '&' !in FormatD(g) && '#' !in FormatD(g)
    ensures '&' !in IntToDecimal(n) && '#' !in IntToDecimal(n)
  {
    FormatDAlphabet(g);
    var s := IntToDecimal(n);
    forall i | 0 <= i < |s| ensures s[i] != '&' && s[i] != '#' {
      if n < 0 && i > 0 {
        assert s[i] == s[1..][i - 1];
      }
    }
  }

  lemma Leads()
    ensures "?" + "tenantId" + "=" == "?tenantId="
    ensures "?" + "count" + "=" == "?count="
    ensures "&" + "count" + "=" == "&count="
    ensures ToLower("tenantId") != ToLower("count")
  {
    assert |ToLower("tenantId")| != |ToLower("count")|;
  }

  /** A filtered URL, read back by the receiving function, names the path and the
      tenant the dashboard asked for. */
  lemma FilteredUrl(prefix: string, g: Guid)
    requires PlainBase(prefix)
    ensures var url := prefix + "?tenantId=" + FormatD(g);
      && UriPath(url) == prefix
      && QueryValue(url, "tenantId") == Some(FormatD(g))
      && ParseGuid(QueryValue(url, "tenantId").value) == Some(g)
  {
    PlainValues(g, 0);
    SingleQuery(prefix, "tenantId", FormatD(g), "tenantId");
    QueryLead(prefix, "tenantId", FormatD(g));
    Leads();
    ParseFormatD(g);
  }

  /** A URL without a query reads back no `tenantId`. */
  lemma UnfilteredUrl(prefix: string)
    requires PlainBase(prefix)
    ensures UriPath(prefix) == prefix && QueryValue(prefix, "tenantId").None?
  {
    UriWithoutQuery(prefix);
  }

  /** The agents URL names the agents path, and its `tenantId` reads back as the tenant
      asked for, or as `null` when none was. */
  lemma AgentsUrlQuery(svc: DashboardService, tenantId: Option<Guid>)
    requires PlainBase(svc.agentFunctionsUrl)
    ensures UriPath(AgentsUrl(svc, tenantId)) == svc.agentFunctionsUrl + "/api/agents"
    ensures QueryValue(AgentsUrl(svc, tenantId), "tenantId").None? <==> tenantId.None?
    ensures tenantId.Some? ==> ParseGuid(QueryValue(AgentsUrl(svc, tenantId), "tenantId").value) == tenantId
  {
    var prefix := svc.agentFunctionsUrl + "/api/agents";
    PlainPath(svc.agentFunctionsUrl, "/api/agents");
    if tenantId.Some? {
      FilteredUrl(prefix, tenantId.value);
    } else {
      UnfilteredUrl(prefix);
    }
  }

  /** The statistics URL, likewise. */
  lemma StatsUrlQuery(svc: DashboardService, tenantId: Option<Guid>)
    requires PlainBase(svc.webFunctionsUrl)
    ensures UriPath(StatsUrl(svc, tenantId)) == svc.webFunctionsUrl + "/api/dashboard/stats"
    ensures QueryValue(StatsUrl(svc, tenantId), "tenantId").None? <==> tenantId.None?
    ensures tenantId.Some? ==> ParseGuid(QueryValue(StatsUrl(svc, tenantId), "tenantId").value) == tenantId
  {
    var prefix := svc.webFunctionsUrl + "/api/dashboard/stats";
    PlainPath(svc.webFunctionsUrl, "/api/dashboard/stats");
    if tenantId.Some? {
      FilteredUrl(prefix, tenantId.value);
    } else {
      UnfilteredUrl(prefix);
    }
  }

  /** An activities URL with a tenant: both values read back. */
  lemma ActivitiesFiltered(prefix: string, g: Guid, count: int)
    requires PlainBase(prefix)
    ensures var url := prefix + "?tenantId=" + FormatD(g) + "&count=" + IntToDecimal(count);
      && UriPath(url) == prefix
      && QueryValue(url, "tenantId") == Some(FormatD(g))
      && QueryValue(url, "count") == Some(IntToDecimal(count))
  {
    PlainValues(g, count);
    Leads();
    PairQuery(prefix, "tenantId", FormatD(g), "count", IntToDecimal(count));
    PairLead(prefix, "tenantId", FormatD(g), "count", IntToDecimal(count));
  }

  /** An activities URL without a tenant: the count reads back and no tenant does. */
  lemma ActivitiesUnfiltered(prefix: string, count: int)
    requires PlainBase(prefix)
    ensures var url := prefix + "?count=" + IntToDecimal(count);
      && UriPath(url) == prefix
      && QueryValue(url, "tenantId").None?
      && QueryValue(url, "count") == Some(IntToDecimal(count))
  {
    PlainValues(Empty, count);
    Leads();
    SingleQuery(prefix, "count", IntToDecimal(count), "tenantId");
    QueryLead(prefix, "count", IntToDecimal(count));
  }

  /** The activities URL names the activities path, carries the tenant only when one is
      given, and always carries a `count` that `int.TryParse` reads back. */
  lemma ActivitiesUrlQuery(svc: DashboardService, tenantId: Option<Guid>, count: int)
    requires PlainBase(svc.webFunctionsUrl)
    requires Int32Min <= count <= Int32Max
    ensures var url := ActivitiesUrl(svc, tenantId, count);
      && UriPath(url) == svc.webFunctionsUrl + "/api/activities"
      && (QueryValue(url, "tenantId").None? <==> tenantId.None?)
      && (tenantId.Some? ==> ParseGuid(QueryValue(url, "tenantId").value) == tenantId)
      && TryParseInt32(QueryValue(url, "count")) == Some(count)
  {
    var prefix := svc.webFunctionsUrl + "/api/activities";
    var digits := IntToDecimal(count);
    PlainPath(svc.webFunctionsUrl, "/api/activities");
    TryParseInt32RoundTrip(count);
    if tenantId.Some? {
      var g := tenantId.value;
      ActivitiesFiltered(prefix, g, count);
      ParseFormatD(g);
    } else {
      ActivitiesUnfiltered(prefix, count);
    }
  }

  // ---------------------------------------------------------------- shaping

  /** `BuildChildren(nodes, parentId, level)`: one node per tenant whose parent is
      `parentId`, in input order, each holding the subtree built one level deeper. The
      recursion is bounded by `fuel` levels. */
  method BuildChildren(ts: seq<Tenant>, parentId: Option<Guid>, level: int, fuel: nat) returns (nodes: seq<TenantNode>)
    decreases fuel, 1
    ensures nodes == Forest(ts, parentId, level, fuel)
  {
    nodes := [];
    if fuel == 0 {
      return;
    }
    var group := ChildrenOf(ts, parentId);
    ghost var all := Forest(ts, parentId, level, fuel);
    for i := 0 to |group|
      invariant nodes == all[..i]
    {
      var node := BuildNode(ts, group[i], level, fuel);
      ForestPrefix(ts, parentId, level, fuel, all, i, nodes, node);
      nodes := nodes + [node];
    }
    assert all[..|group|] == all;
  }

  /** One pass of the loop in `BuildChildren`: the node for `tenant` at `level`, with
      `Children` filled in by the recursive call one level deeper. */
  method BuildNode(ts: seq<Tenant>, tenant: Tenant, level: int, fuel: nat) returns (node: TenantNode)
    requires fuel > 0
    decreases fuel, 0
    ensures node == NodeFor(tenant, level, Forest(ts, Some(tenant.TenantId), level + 1, fuel - 1))
  {
    var children := BuildChildren(ts, Some(tenant.TenantId), level + 1, fuel - 1);
    node := NodeFor(tenant, level, children);
  }

  /** `BuildTenantHierarchy`: the forest under the tenants without a parent. With
      distinct ids it is exactly the parent-pointer structure: every node's children
      are the tenants naming it as parent, in input order, one level deeper; a tenant
      appears at most once, and it appears iff its parent chain reaches a root. */
  method BuildTenantHierarchy(ts: seq<Tenant>) returns (result: seq<TenantNode>)
    ensures result == Hierarchy(ts)
    ensures DistinctIds(ts) ==> Faithful(ts, result, None, 0)
    ensures DistinctIds(ts) ==> forall x :: Count(result, x) <= 1
    ensures DistinctIds(ts) ==> forall x :: Count(result, x) > 0 <==> Rooted(ts, Some(x))
  {
    result := BuildChildren(ts, None, 0, |ts|);
    if DistinctIds(ts) {
      HierarchyFaithful(ts);
      forall x ensures Count(result, x) <= 1 && (Count(result, x) > 0 <==> Rooted(ts, Some(x))) {
        HierarchyMembership(ts, x);
      }
    }
  }

  /** The roots of the hierarchy are the tenants without a parent, in input order, at
      level 0. */
  lemma HierarchyRoots(ts: seq<Tenant>)
    ensures |Hierarchy(ts)| == |ChildrenOf(ts, None)|
    ensures forall k :: 0 <= k < |Hierarchy(ts)| ==>
      && Hierarchy(ts)[k].TenantId == ChildrenOf(ts, None)[k].TenantId
      && Hierarchy(ts)[k].Level == 0
  {
    if ts == [] {
      assert ChildrenOf(ts, None) == [];
    }
  }

  /** `MapToAgentSummary` for one agent: id in "D" format, names copied, online iff the
      status is `Online`, the status by name, no metrics yet, the tenant name unknown and
      the tenant id defaulting to `Guid.Empty`. */
  function AgentSummaryOf(a: Agent): (s: AgentSummary)
    ensures s.AgentId == FormatD(a.AgentId) && ParseGuid(s.AgentId) == Some(a.AgentId)
    ensures s.MachineName == a.MachineName && s.OperatingSystem == a.OperatingSystem
    ensures s.LastSeen == a.LastSeen
    ensures s.IsOnline <==> a.Status == Online
    ensures s.Status == a.Status.Name()
    ensures s.CpuUsage == 0.0 && s.MemoryUsage == 0.0 && s.TenantName == "Unknown"
    ensures a.TenantId.Some? ==> s.TenantId == a.TenantId.value
    ensures a.TenantId.None? ==> s.TenantId == Empty
  {
    ParseFormatD(a.AgentId);
    AgentSummary(
      FormatD(a.AgentId), a.MachineName, a.OperatingSystem, a.Status == Online, a.LastSeen,
      a.Status.Name(), 0.0, 0.0, "Unknown", a.TenantId.GetOr(Empty))
  }

  /** A summary's status name and online flag agree, and the name identifies the
      status. */
  lemma SummaryStatusConsistent(a: Agent, b: Agent)
    ensures AgentSummaryOf(a).IsOnline <==> AgentSummaryOf(a).Status == "Online"
    ensures AgentSummaryOf(a).Status == AgentSummaryOf(b).Status ==> a.Status == b.Status
  {
    var sa, sb := AgentSummaryOf(a), AgentSummaryOf(b);
    assert sa.Status == a.Status.Name() && sb.Status == b.Status.Name();
    StatusNamesDistinct(a.Status, Online);
    StatusNamesDistinct(a.Status, b.Status);
  }

  /** `agents.Select(...).ToList()`: one summary per agent, in order. */
  function MapToAgentSummary(agents: seq<Agent>): (r: seq<AgentSummary>)
    ensures |r| == |agents|
    ensures forall i :: 0 <= i < |agents| ==> r[i] == AgentSummaryOf(agents[i])
  {
    seq(|agents|, i requires 0 <= i < |agents| => AgentSummaryOf(agents[i]))
  }

  /** The projection keeps order: summarising two lists one after the other is
      summarising their concatenation. */
  lemma MapToAgentSummaryAppend(a: seq<Agent>, b: seq<Agent>)
    ensures MapToAgentSummary(a + b) == MapToAgentSummary(a) + MapToAgentSummary(b)
  {
    assert forall i :: 0 <= i < |b| ==> (a + b)[|a| + i] == b[i];
  }

  /** `BuildHierarchyPath`: "Root" without a tenant, otherwise "Root / " and its name. */
  function BuildHierarchyPath(tenant: Option<TenantNode>): (path: string)
    ensures |path| >= 4 && path[..4] == "Root"
    ensures tenant.None? <==> |path| == 4
  {
    if tenant.None? then "Root" else "Root / " + tenant.value.Name
  }

  /** The tenant name at the end of a hierarchy path, if there is one. */
  function PathLeaf(path: string): Option<string> {
    if |path| >= 7 && path[..7] == "Root / " then Some(path[7..]) else None
  }

  /** The path names exactly the tenant it was built for. */
  lemma HierarchyPathLeaf(tenant: Option<TenantNode>)
    ensures PathLeaf(BuildHierarchyPath(tenant)) == if tenant.Some? then Some(tenant.value.Name) else None
  {
    if tenant.Some? {
      var path := BuildHierarchyPath(tenant);
      assert path[..7] == "Root / ";
      assert path[7..] == tenant.value.Name;
    }
  }

  // ---------------------------------------------------------------- fetching

  /** What one HTTP call gives back: a thrown exception (no connection, a body that is
      not JSON of the expected shape), a non-success status, or a success whose body
      deserialises to `value` (`None` for the JSON literal `null`). */
  datatype Fetched<T> = Failed | NotSuccess | Body(value: Option<T>)

  /** JSON arrays may hold `null` elements. */
  predicate NoNulls<T>(xs: seq<Option<T>>) {
    forall i :: 0 <= i < |xs| ==> xs[i].Some?
  }

  function Present<T>(xs: seq<Option<T>>): (ys: seq<T>)
    requires NoNulls(xs)
    ensures |ys| == |xs| && forall i :: 0 <= i < |xs| ==> ys[i] == xs[i].value
  {
    seq(|xs|, i requires 0 <= i < |xs| => xs[i].value)
  }

  /** The tenant forest a reply leads to: the hierarchy of the tenants received, or
      nothing when the call failed, the body was `null`, or an element was `null` (the
      lookup then throws and the handler returns an empty list). */
  function TenantTree(reply: Fetched<seq<Option<Tenant>>>): seq<TenantNode> {
    if reply.Body? && reply.value.Some? && NoNulls(reply.value.value) then Hierarchy(Present(reply.value.value))
    else []
  }

  /** `GetTenantHierarchyAsync`. */
  method GetTenantHierarchy(svc: DashboardService, http: string -> Fetched<seq<Option<Tenant>>>)
    returns (nodes: seq<TenantNode>)
    ensures nodes == TenantTree(http(HierarchyUrl(svc)))
  {
    var reply := http(HierarchyUrl(svc));
    if reply.Body? {
      var tenants := if reply.value.Some? then reply.value.value else [];
      if NoNulls(tenants) {
        nodes := BuildTenantHierarchy(Present(tenants));
        return;
      }
    }
    nodes := [];
  }

  /** `GetAgentsAsync`: the summaries of the agents received, or nothing on any failure
      (a `null` element makes the projection throw). */
  function GetAgents(svc: DashboardService, http: string -> Fetched<seq<Option<Agent>>>, tenantId: Option<Guid>)
    : seq<AgentSummary>
  {
    var reply := http(AgentsUrl(svc, tenantId));
    if reply.Body? && reply.value.Some? && NoNulls(reply.value.value) then MapToAgentSummary(Present(reply.value.value))
    else []
  }

  /** `GetDashboardStatsAsync`: the statistics received, or all zeros. */
  function GetDashboardStats(svc: DashboardService, http: string -> Fetched<DashboardStats>, tenantId: Option<Guid>)
    : DashboardStats
  {
    var reply := http(StatsUrl(svc, tenantId));
    if reply.Body? && reply.value.Some? then reply.value.value else EmptyStats
  }

  /** `GetRecentActivitiesAsync`: the activities received, or none. */
  function GetRecentActivities(
    svc: DashboardService, http: string -> Fetched<seq<RecentActivity>>, tenantId: Option<Guid>, count: int)
    : seq<RecentActivity>
  {
    var reply := http(ActivitiesUrl(svc, tenantId, count));
    if reply.Body? && reply.value.Some? then reply.value.value else []
  }

  /** `GetDashboardDataAsync`. With `useExampleData` it is the sample dashboard.
      Otherwise the four fetches feed the view; the current tenant is the first root of
      the forest, and with no tenants it is `Guid.Empty`, "No Tenants", "Organization"
      under the path "Root". */
  method GetDashboardData(
    svc: DashboardService, tenantId: Option<Guid>, useExampleData: bool, sample: DashboardView,
    tenantsHttp: string -> Fetched<seq<Option<Tenant>>>,
    agentsHttp: string -> Fetched<seq<Option<Agent>>>,
    statsHttp: string -> Fetched<DashboardStats>,
    activitiesHttp: string -> Fetched<seq<RecentActivity>>)
    returns (view: DashboardView)
    ensures useExampleData ==> view == sample
    ensures !useExampleData ==>
      var tree := TenantTree(tenantsHttp(HierarchyUrl(svc)));
      var header := view.TenantHierarchy;
      && header.TenantTree == tree
      && (tree == [] ==>
            && header.CurrentTenantId == Empty && header.CurrentTenantName == "No Tenants"
            && header.CurrentTenantType == "Organization" && header.HierarchyPath == "Root")
      && (tree != [] ==>
            && header.CurrentTenantId == tree[0].TenantId && header.CurrentTenantName == tree[0].Name
            && header.CurrentTenantType == tree[0].Type && header.HierarchyPath == "Root / " + tree[0].Name)
      && view.Agents == GetAgents(svc, agentsHttp, tenantId)
      && view.Stats == GetDashboardStats(svc, statsHttp, tenantId)
      && view.RecentActivities == GetRecentActivities(svc, activitiesHttp, tenantId, 10)
  {
    if useExampleData {
      return sample;
    }
    var tree := GetTenantHierarchy(svc, tenantsHttp);
    var agents := GetAgents(svc, agentsHttp, tenantId);
    var stats := GetDashboardStats(svc, statsHttp, tenantId);
    var activities := GetRecentActivities(svc, activitiesHttp, tenantId, 10);
    var current := if tree == [] then None else Some(tree[0]);
    var header := TenantHierarchyView(
      if current.Some? then current.value.TenantId else Empty,
      if current.Some? then current.value.Name else "No Tenants",
      if current.Some? then current.value.Type else "Organization",
      tree,
      BuildHierarchyPath(current));
    view := DashboardView(header, agents, stats, activities);
  }

  /** When the tenants arrive, the current tenant is the first of them without a parent;
      when none of them lacks a parent, the defaults are shown. */
  lemma CurrentTenantIsFirstRoot(ts: seq<Tenant>)
    ensures var tree := TenantTree(Body(Some(seq(|ts|, i requires 0 <= i < |ts| => Some(ts[i])))));
      && (tree == [] <==> ChildrenOf(ts, None) == [])
      && (tree != [] ==> tree[0].TenantId == ChildrenOf(ts, None)[0].TenantId && tree[0].Level == 0)
  {
    var wrapped := seq(|ts|, i requires 0 <= i < |ts| => Some(ts[i]));
    assert Present(wrapped) == ts;
    HierarchyRoots(ts);
  }
}
