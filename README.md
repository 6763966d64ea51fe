# Signal9 core, modelled in Dafny

Signal9 is a multi-tenant remote-monitoring system. An agent on each machine connects
to a SignalR hub, registers itself, then sends heartbeats, telemetry snapshots and
command results. A web dashboard shows a tenant tree, agent summaries, statistics and
recent activity. Tenant and agent management runs as HTTP functions.

This project models four parts of the repository:

- **`AgentRuntime`** (`agent_service.dfy`): the agent's background service.
  - It is a class whose fields are the same as the service's: the reconnect counter,
    the two timers, and the hub invocations it has sent.
  - The connect / lose connection / back off loop is run over a sequence of session
    outcomes.
  - That loop is proved against summary functions (`Drops`, `Delays`, `Registrations`,
    `RunTimers`). After a run, only the timers of the last connection can still be
    live, and only when the stop came while it was up.
- **`TelemetryCollector`** (`telemetry_collector.dfy`): the telemetry snapshot, the two
  metric filters (the union filter and the per-metric one), and the loops that build them.
- **`Dashboard`** (`dashboard_service.dfy`): the dashboard service.
  - It builds its URLs, and they are proved to round-trip through query-string parsing.
  - The recursive `BuildChildren` tree builder is proved equal to a specification forest.
  - `TenantHierarchy` (`tenant_hierarchy.dfy`) proves that this forest is the parent
    forest of the tenants. With distinct ids, each tenant whose parent chain ends at
    `null` appears exactly once, and no other tenant appears.
- **`TenantManagement`** (`dashboard_functions.dfy`): the tenant and agent HTTP
  handlers.
  - They are modelled with their exact status codes and messages.
  - Pagination, entity creation, merge-on-update, soft delete and status updates are
    included.

Supporting modules:

- `Common`: `Option`, and `Outcome` (a value or a thrown exception).
- `Text`: trimming, `ToLower`, `int.TryParse` and decimal printing.
- `Guids`: the "N" and "D" formats and `Guid.TryParse`.
- `QueryStrings`: `HttpUtility.ParseQueryString` and `Uri` query/path splitting.
- `Models` and `ViewModels`: the records.

Design choices:

- Clocks, `Guid.NewGuid()`, the system-information provider, the repository lookups
  and HTTP responses are parameters.
- Exceptions are `Outcome.Threw`.

## Model

| member | source | states |
|---|---|---|
| AgentRuntime.AgentIdFor | src/Signal9.Agent/Services/AgentService.cs:39 | the agent id is the machine name, `_`, then the first 8 lower-case hex digits of the new GUID |
| AgentRuntime.AgentIdDistinguishesSuffixes | src/Signal9.Agent/Services/AgentService.cs:39 | two GUIDs whose first 8 digits differ give different agent ids on one machine |
| AgentRuntime.BackoffStrictlyIncreasing | src/Signal9.Agent/Services/AgentService.cs:292-306 | with a positive `ReconnectDelay`, the reconnect wait strictly grows with the attempt number up to `MaxReconnectAttempts` |
| AgentRuntime.BackoffBounded | src/Signal9.Agent/Services/AgentService.cs:292-306 | the wait is never negative and never exceeds `ReconnectDelay * MaxReconnectAttempts` |
| AgentRuntime.DefaultBackoff | src/Signal9.Agent/Services/AgentService.cs:292-306 | with the default configuration (5 s, 10 attempts), attempt n waits 5n seconds; past 10 attempts there is no wait |
| AgentRuntime.RegistrationTags | src/Signal9.Agent/Services/AgentService.cs:136-146 | the registration tags have exactly the eight keys, and memory and core count are printed in decimal |
| AgentRuntime.RegistrationTagDefaults | src/Signal9.Agent/Services/AgentService.cs:136-146 | every missing system-information string becomes "Unknown", and a missing group name becomes "default" |
| AgentRuntime.RegistrationPayload | src/Signal9.Agent/Services/AgentService.cs:128-147 | the registration carries the agent id, online, no tenant id, `LastSeen` now, tenant code defaulting to "default", version defaulting to "1.0.0", the machine's fields, and the tags |
| AgentRuntime.RegistrationNumbersRoundTrip | src/Signal9.Agent/Services/AgentService.cs:140-141 | the memory and core-count tags parse back with `int.TryParse` to the numbers they print |
| AgentRuntime.CommandResult | src/Signal9.Agent/Services/AgentService.cs:208-256 | the status is Completed exactly for "ping" and for a successful "systeminfo" (any case); the result is "pong" or the system information; an unknown type, a failed system-information call or a null type gives Failed with the exception message |
| AgentRuntime.DispatchIgnoresCase | src/Signal9.Agent/Services/AgentService.cs:222 | two commands whose types differ only in letter case get the same status, result and error |
| AgentRuntime.LiveCountAtMostOne | src/Signal9.Agent/Services/AgentService.cs:158-173 | when at most one position holds a live timer of a kind, at most one live timer of that kind is counted |
| AgentRuntime.AtMostOneLiveTimer | src/Signal9.Agent/Services/AgentService.cs:158-173 | in every consistent timer state, at most one heartbeat timer and at most one telemetry timer are undisposed |
| AgentRuntime.SessionsUsed | src/Signal9.Agent/Services/AgentService.cs:46-71 | the loop consumes at least one and at most all of the sessions |
| AgentRuntime.SessionsUsedStops | src/Signal9.Agent/Services/AgentService.cs:46-71 | the loop runs until the first session in which a stop was requested, and not past it |
| AgentRuntime.SessionsUsedStep | src/Signal9.Agent/Services/AgentService.cs:46-71 | one more pass of the loop consumes one more session, unless that session requested a stop |
| AgentRuntime.SessionStep | src/Signal9.Agent/Services/AgentService.cs:46-71 | one more session adds one drop when it connected and was not stopped, one connection when it connected, and its registration if it sent one |
| AgentRuntime.DelaysAppend | src/Signal9.Agent/Services/AgentService.cs:46-71 | one more session adds its wait, if it has one, to the waits taken so far |
| AgentRuntime.DelaysOfRepeatedDrops | src/Signal9.Agent/Services/AgentService.cs:60-64 | when every session connects and is then lost, the n-th wait is the backoff for attempt n |
| AgentRuntime.DelaysWithoutHubUrl | src/Signal9.Agent/Services/AgentService.cs:46-79 | without a hub URL nothing connects, and every pass waits the fixed `ReconnectDelay` |
| AgentRuntime.AgentService.constructor | src/Signal9.Agent/Services/AgentService.cs:29-40 | a new service keeps the configuration and machine name, derives its agent id, and has no timers, no attempts and no invocations |
| AgentRuntime.AgentService.StopTimers | src/Signal9.Agent/Services/AgentService.cs:169-173 | every timer is disposed and nothing else changes |
| AgentRuntime.AgentService.StartTimers | src/Signal9.Agent/Services/AgentService.cs:158-167 | old timers are disposed, a heartbeat timer (due 0, `HeartbeatInterval`) and a telemetry timer (due 10, `TelemetryInterval`) are added, and the fields point at them |
| AgentRuntime.AgentService.OnReconnecting | src/Signal9.Agent/Services/AgentService.cs:99-103 | losing the connection disposes every timer |
| AgentRuntime.AgentService.OnClosed | src/Signal9.Agent/Services/AgentService.cs:113-117 | a closed connection disposes every timer |
| AgentRuntime.AgentService.Register | src/Signal9.Agent/Services/AgentService.cs:123-156 | a registration invocation is appended exactly when system information could be read; otherwise nothing is sent |
| AgentRuntime.AgentService.OnReconnected | src/Signal9.Agent/Services/AgentService.cs:105-111 | reconnecting resets the attempt counter, registers again and restarts both timers |
| AgentRuntime.AgentService.SendHeartbeat | src/Signal9.Agent/Services/AgentService.cs:175-189 | a heartbeat is sent only while connected |
| AgentRuntime.AgentService.SendTelemetryTick | src/Signal9.Agent/Services/AgentService.cs:191-206 | the collected snapshot is sent only while connected |
| AgentRuntime.AgentService.ExecuteCommand | src/Signal9.Agent/Services/AgentService.cs:208-256 | exactly one result, the one `CommandResult` describes, is reported for the command id |
| AgentRuntime.AgentService.HandleReconnection | src/Signal9.Agent/Services/AgentService.cs:292-306 | the counter goes up by one, and the wait is the backoff for the new count |
| AgentRuntime.AgentService.ConnectToHub | src/Signal9.Agent/Services/AgentService.cs:74-121 | connecting fails with "Hub URL not configured" when the URL is missing, fails with the start error when starting fails, and succeeds otherwise |
| AgentRuntime.AgentService.RunSession | src/Signal9.Agent/Services/AgentService.cs:46-71 | one pass of the loop: a connection that is lost bumps the counter and waits the backoff, a failed connect waits `ReconnectDelay`, a registration is sent if it connected; a connection disposes the old timers and starts two, which the `Reconnecting` handler disposes again when the connection is lost; the fields then point at the two new timers, and are untouched without a connection |
| AgentRuntime.AgentService.Pass | src/Signal9.Agent/Services/AgentService.cs:46-71 | one pass moves the counter, the waits, the invocations, the timers and the timer fields on by exactly that session's share (`Progress` from n to n + 1 sessions) |
| AgentRuntime.AgentService.Run | src/Signal9.Agent/Services/AgentService.cs:42-72 | the loop stops at the first stop request; counter, waits, registrations, timers and timer fields are those of the sessions it consumed (`Progress`); after any connection, every timer but the last two is disposed, and those two are live exactly when the stop came while connected |
| AgentRuntime.SessionTimers | src/Signal9.Agent/Services/AgentService.cs:46-71 | a session adds two timers exactly when it connects |
| AgentRuntime.RunTimers | src/Signal9.Agent/Services/AgentService.cs:46-71 | a run adds two timers per connection |
| AgentRuntime.SessionTimersSettled | src/Signal9.Agent/Services/AgentService.cs:99-103 | after a connected session every older timer is disposed; after a lost connection no timer is live; after a stop only the two new ones are |
| AgentRuntime.RunTimersSettled | src/Signal9.Agent/Services/AgentService.cs:46-71 | a run that connected and stopped only at its end leaves only the last connection's timers, live exactly when the stop came while connected |
| AgentRuntime.SessionsUsedExactly | src/Signal9.Agent/Services/AgentService.cs:46-71 | the loop uses exactly k sessions when none of the first k - 1 asked to stop and the k-th did or was the last |
| AgentRuntime.FieldsStep | src/Signal9.Agent/Services/AgentService.cs:158-167 | after a connected session the fields point at the two newest timers; without a connection they keep pointing where they did |
| AgentRuntime.ProgressStep | src/Signal9.Agent/Services/AgentService.cs:46-71 | one more session moves the counter, waits, registrations, timers and fields on by its share |
| AgentRuntime.RunSettles | src/Signal9.Agent/Services/AgentService.cs:46-71 | a run that connected leaves settled timers |
| AgentRuntime.DelaysNonNegative | src/Signal9.Agent/Services/AgentService.cs:292-306 | under a valid configuration every wait of the loop is non-negative, so `Task.Delay` accepts it |
| AgentRuntime.DropsPastCapNeverShutDown | src/Signal9.Agent/Services/AgentService.cs:292-306 | as written, a run of lost connections uses every session and no wait from the cap on is longer than zero |
| AgentRuntime.IntendedSessionsUsed | src/Signal9.Agent/Services/AgentService.cs:295-298 | the sessions the loop would use if passing the cap shut the service down: at least one, at most all |
| AgentRuntime.IntendedShutsDown | src/Signal9.Agent/Services/AgentService.cs:295-298 | with that shutdown, lost connections end the run at the first one past the cap |
| AgentRuntime.BackoffNegative | src/Signal9.Agent/Services/AgentService.cs:301 | a negative `ReconnectDelay` makes every wait below the cap negative |
| AgentRuntime.AgentService.Stop | src/Signal9.Agent/Services/AgentService.cs:308-320 | stopping disposes every timer |
| TelemetryCollector.CollectTelemetry | src/Signal9.Agent/Services/TelemetryCollector.cs:21-61 | on success, the snapshot copies the performance figures and system information and carries exactly the five default custom metrics: the collection time, agent version "1.0.0", and the probe's process count, service count and uptime; on failure, every figure is zero and there are no custom metrics |
| TelemetryCollector.KeysFor | src/Signal9.Agent/Services/TelemetryCollector.cs:118-133 | a metric name selects some keys exactly when it is one of cpu, memory, disk and network |
| TelemetryCollector.FilteredMetrics | src/Signal9.Agent/Services/TelemetryCollector.cs:113-136 | the filtered custom metrics are exactly the selected keys, each holding the snapshot's own value |
| TelemetryCollector.UnionKeysSnoc | src/Signal9.Agent/Services/TelemetryCollector.cs:116-134 | one more requested name adds exactly its keys |
| TelemetryCollector.SingleFilter | src/Signal9.Agent/Services/TelemetryCollector.cs:118-133 | each known name selects its own field ("network" selects both network fields), and an unknown name selects nothing |
| TelemetryCollector.FilteredMetricsUnique | src/Signal9.Agent/Services/TelemetryCollector.cs:113-136 | any map with the selected keys and the snapshot's values is the filtered map |
| TelemetryCollector.SelectMetric | src/Signal9.Agent/Services/TelemetryCollector.cs:118-133 | one pass of the filter loop adds the keys of one name and keeps every other entry |
| TelemetryCollector.CollectFiltered | src/Signal9.Agent/Services/TelemetryCollector.cs:106-140 | a null or empty list gives the full snapshot; a null name throws; otherwise the custom metrics are replaced by the union filter |
| TelemetryCollector.FilterDependsOnlyOnRecognised | src/Signal9.Agent/Services/TelemetryCollector.cs:116-134 | two requests that recognise the same metric names give the same filter, whatever their order, case, repeats or unknown names |
| TelemetryCollector.UnionKeysTransfer | src/Signal9.Agent/Services/TelemetryCollector.cs:116-134 | a key selected by one request is selected by every request that recognises the same names |
| TelemetryCollector.OnlyUnrecognisedIsEmpty | src/Signal9.Agent/Services/TelemetryCollector.cs:116-136 | a request that names no known metric empties the custom metrics |
| TelemetryCollector.NarrowTo | src/Signal9.Agent/Services/TelemetryCollector.cs:74-92 | narrowing only replaces the custom metrics, and an unknown name leaves the snapshot unchanged |
| TelemetryCollector.CollectSpecific | src/Signal9.Agent/Services/TelemetryCollector.cs:63-104 | one snapshot per requested name, each narrowed to that metric; a null name gives the empty list; a null array throws |
| TelemetryCollector.NarrowToIsSingletonFilter | src/Signal9.Agent/Services/TelemetryCollector.cs:74-92 | narrowing to a known metric is the union filter over that one name |
| TelemetryCollector.FilteredReportsProbes | src/Signal9.Agent/Services/TelemetryCollector.cs:26-37 | every key a filter selects from a collected snapshot holds the figure the performance probe read |
| TelemetryCollector.FilteredOfFailedReadingIsZero | src/Signal9.Agent/Services/TelemetryCollector.cs:51-60 | when a probe throws, every key a filter selects reads zero |
| TelemetryCollector.UnrecognisedKeepsDefaults | src/Signal9.Agent/Services/TelemetryCollector.cs:74-92 | an unknown name keeps the five default custom metrics |
| Dashboard.NewDashboardService | src/Signal9.Web/Services/DashboardService.cs:19-28 | each base URL is the configured setting when present, and the local default otherwise |
| Dashboard.PlainValues | src/Signal9.Web/Services/DashboardService.cs:97-99 | a printed GUID or number never holds `&` or `#` |
| Dashboard.FilteredUrl | src/Signal9.Web/Services/DashboardService.cs:97-99 | a URL with a tenant filter has the endpoint as its path, and its `tenantId` reads back as the same GUID |
| Dashboard.UnfilteredUrl | src/Signal9.Web/Services/DashboardService.cs:97-99 | without a tenant the URL carries no `tenantId` |
| Dashboard.AgentsUrlQuery | src/Signal9.Web/Services/DashboardService.cs:97-99 | the agents URL carries `tenantId` exactly when a tenant is given, and it parses back to that tenant |
| Dashboard.StatsUrlQuery | src/Signal9.Web/Services/DashboardService.cs:123-125 | the same for the statistics URL |
| Dashboard.ActivitiesFiltered | src/Signal9.Web/Services/DashboardService.cs:149-151 | the filtered activities URL carries both the tenant and the count |
| Dashboard.ActivitiesUnfiltered | src/Signal9.Web/Services/DashboardService.cs:149-151 | the unfiltered activities URL carries the count and no tenant |
| Dashboard.ActivitiesUrlQuery | src/Signal9.Web/Services/DashboardService.cs:145-151 | the activities URL has the tenant exactly when one is given, and its count parses back with `int.TryParse` |
| Dashboard.BuildChildren | src/Signal9.Web/Services/DashboardService.cs:176-195 | the loop builds exactly the specification forest below the parent |
| Dashboard.BuildNode | src/Signal9.Web/Services/DashboardService.cs:180-192 | one loop pass builds the node of one tenant over the forest one level deeper |
| Dashboard.BuildTenantHierarchy | src/Signal9.Web/Services/DashboardService.cs:171-199 | with distinct ids, the result is the parent forest; each tenant appears at most once, and appears exactly when its parent chain ends at `null` |
| Dashboard.HierarchyRoots | src/Signal9.Web/Services/DashboardService.cs:197 | the roots are the parentless tenants, in input order, at level 0 |
| Dashboard.AgentSummaryOf | src/Signal9.Web/Services/DashboardService.cs:201-217 | the summary's id is the agent's GUID and parses back; online exactly when the status is Online; the status name; zero usage; "Unknown" tenant name; `Guid.Empty` when there is no tenant |
| Dashboard.SummaryStatusConsistent | src/Signal9.Web/Services/DashboardService.cs:205-210 | `IsOnline` agrees with the status text, and equal status texts mean equal statuses |
| Dashboard.MapToAgentSummary | src/Signal9.Web/Services/DashboardService.cs:201-217 | one summary per agent, in order |
| Dashboard.MapToAgentSummaryAppend | src/Signal9.Web/Services/DashboardService.cs:201-217 | summarising distributes over concatenation |
| Dashboard.BuildHierarchyPath | src/Signal9.Web/Services/DashboardService.cs:219-225 | the path starts with "Root", and is only "Root" when there is no tenant |
| Dashboard.HierarchyPathLeaf | src/Signal9.Web/Services/DashboardService.cs:219-225 | the path names exactly the tenant it was built for |
| Dashboard.Present | src/Signal9.Web/Services/DashboardService.cs:80 | a list without nulls is read element for element |
| Dashboard.GetTenantHierarchy | src/Signal9.Web/Services/DashboardService.cs:71-91 | the tree is the hierarchy of the fetched tenants; a failed fetch or a null body gives the empty tree |
| Dashboard.GetDashboardData | src/Signal9.Web/Services/DashboardService.cs:30-69 | sample data when requested; otherwise the first root is the current tenant ("No Tenants" when there is none), with the agents, statistics and last ten activities of the tenant |
| Dashboard.CurrentTenantIsFirstRoot | src/Signal9.Web/Services/DashboardService.cs:45-60 | the dashboard has a current tenant exactly when some tenant has no parent, and it is the first such tenant |
| TenantHierarchy.ChildrenOf | src/Signal9.Web/Services/DashboardService.cs:173 | a lookup group holds only tenants naming that parent |
| TenantHierarchy.ChildrenOfDistinct | src/Signal9.Web/Services/DashboardService.cs:173 | groups of a list with distinct ids have distinct ids |
| TenantHierarchy.ChildrenOfSound | src/Signal9.Web/Services/DashboardService.cs:173 | every group member is one of the tenants |
| TenantHierarchy.ChildrenOfComplete | src/Signal9.Web/Services/DashboardService.cs:173 | every tenant naming the parent is in its group |
| TenantHierarchy.ChildrenOfAppend | src/Signal9.Web/Services/DashboardService.cs:173 | the lookup keeps input order |
| TenantHierarchy.NodeFor | src/Signal9.Web/Services/DashboardService.cs:180-190 | a node copies id, name, type and `IsActive`, has the given level, zero agent counts, is expanded, and has the given children |
| TenantHierarchy.Forest | src/Signal9.Web/Services/DashboardService.cs:176-195 | one node per group member |
| TenantHierarchy.ForestPrefix | src/Signal9.Web/Services/DashboardService.cs:178-194 | the forest grows one node per loop pass |
| TenantHierarchy.FindDistinct | src/Signal9.Shared/Models/Tenant.cs:11 | with distinct ids, looking a tenant up by id finds it |
| TenantHierarchy.ReachesTrans | src/Signal9.Shared/Models/Tenant.cs:30 | parent chains compose |
| TenantHierarchy.ChildReachesParent | src/Signal9.Web/Services/DashboardService.cs:173 | every group member's parent link leads to the group's parent |
| TenantHierarchy.ReachesSplit | src/Signal9.Shared/Models/Tenant.cs:30 | a chain is determined by its start |
| TenantHierarchy.ReachesUnique | src/Signal9.Shared/Models/Tenant.cs:30 | a chain passes through one tenant at each distance |
| TenantHierarchy.NoCycleWhenRooted | src/Signal9.Shared/Models/Tenant.cs:30 | a chain that ends at `null` has no cycle |
| TenantHierarchy.ChainIndices | src/Signal9.Shared/Models/Tenant.cs:30 | a chain of n steps to `null` passes through n distinct tenants |
| TenantHierarchy.ChainBound | src/Signal9.Shared/Models/Tenant.cs:30 | no chain to `null` is longer than the tenant list, so the recursion bound is enough |
| TenantHierarchy.CountPositive | src/Signal9.Web/Services/DashboardService.cs:176-195 | a tenant occurs in a forest exactly when it occurs below one of its nodes |
| TenantHierarchy.CountAtMostOne | src/Signal9.Web/Services/DashboardService.cs:176-195 | a forest whose subtrees hold a tenant at most once, and never two of them, holds it at most once |
| TenantHierarchy.NoChildren | src/Signal9.Web/Services/DashboardService.cs:178 | a parent no tenant points to has an empty group |
| TenantHierarchy.NothingDeeper | src/Signal9.Web/Services/DashboardService.cs:192 | the depth bound carries over to each child |
| TenantHierarchy.ForestFaithful | src/Signal9.Web/Services/DashboardService.cs:176-195 | the bounded forest is the full forest when no tenant lies deeper than the bound |
| TenantHierarchy.HierarchyFaithful | src/Signal9.Web/Services/DashboardService.cs:171-199 | with distinct ids, the hierarchy is the full forest: roots are the parentless tenants at level 0, and children are the tenants naming their parent, one level deeper, in input order |
| TenantHierarchy.SelfParentRecursesAgain | src/Signal9.Web/Services/DashboardService.cs:176-193 | a tenant whose parent id is its own id appears among the children of that id, with children built by the same call one level deeper, at every depth |
| TenantHierarchy.FaithfulUnique | src/Signal9.Web/Services/DashboardService.cs:176-195 | there is only one forest of that shape |
| TenantHierarchy.FaithfulReach | src/Signal9.Web/Services/DashboardService.cs:176-195 | every node of the forest below a parent is a tenant whose chain leads to that parent |
| TenantHierarchy.FaithfulComplete | src/Signal9.Web/Services/DashboardService.cs:176-195 | every tenant whose chain leads to a parent has a node below it |
| TenantHierarchy.ChildOnChain | src/Signal9.Web/Services/DashboardService.cs:176-195 | a chain to a parent passes through one of its group's members |
| TenantHierarchy.LastStep | src/Signal9.Shared/Models/Tenant.cs:30 | a chain splits into a shorter chain and a last step |
| TenantHierarchy.FaithfulAtMostOnce | src/Signal9.Web/Services/DashboardService.cs:176-195 | with distinct ids, no tenant appears twice below a rooted parent |
| TenantHierarchy.NotBelowItself | src/Signal9.Web/Services/DashboardService.cs:176-195 | a rooted tenant is not in its own subtree |
| TenantHierarchy.SiblingsDisjoint | src/Signal9.Web/Services/DashboardService.cs:176-195 | two siblings have no common descendant |
| TenantHierarchy.Depth | src/Signal9.Web/Services/DashboardService.cs:176-195 | a tenant under a node lies some steps below that node's tenant |
| TenantHierarchy.SiblingsApart | src/Signal9.Web/Services/DashboardService.cs:176-195 | below a rooted parent, two children cannot reach one tenant at different depths |
| TenantHierarchy.HierarchyMembership | src/Signal9.Web/Services/DashboardService.cs:171-199 | with distinct ids, a tenant is in the hierarchy exactly when its chain ends at `null`, and then exactly once |
| Models.StatusNamesDistinct | src/Signal9.Shared/Models/Agent.cs:63-70 | different agent statuses print differently |
| TenantManagement.PageOf | src/Signal9.Web.Functions/DashboardFunctions.cs:46 | the page is the parsed number clamped below at 1, and 1 when it does not parse |
| TenantManagement.PageSizeOf | src/Signal9.Web.Functions/DashboardFunctions.cs:47 | the page size lies in 1..100: the parsed number when it is in range, exactly 100 when it is above, exactly 1 when it is below, and 20 when it does not parse |
| TenantManagement.PageRoundTrip | src/Signal9.Web.Functions/DashboardFunctions.cs:46 | a printed page number reads back clamped at 1 |
| TenantManagement.PageSizeRoundTrip | src/Signal9.Web.Functions/DashboardFunctions.cs:47 | a printed page size reads back clamped to 1..100 |
| TenantManagement.PaginationStable | src/Signal9.Web.Functions/DashboardFunctions.cs:46-47 | clamping is idempotent: re-sending the page and size a reply reports gives the same page and size |
| TenantManagement.PagedUrl | src/Signal9.Web.Functions/DashboardFunctions.cs:39-46 | a `?page=n` URL yields page n clamped at 1 |
| TenantManagement.EmptyListing | src/Signal9.Web.Functions/DashboardFunctions.cs:39-64 | the listing is empty with zero totals, and has the page and size parsed from the URL |
| TenantManagement.GetTenants | src/Signal9.Web.Functions/DashboardFunctions.cs:32-75 | 200 with the empty listing for the URL |
| TenantManagement.GetTenant | src/Signal9.Web.Functions/DashboardFunctions.cs:81-122 | 400 for a malformed id, 404 for an unknown one, otherwise 200 with the tenant |
| TenantManagement.GetTenantById | src/Signal9.Web.Functions/DashboardFunctions.cs:89-113 | asking for a stored tenant by its printed id returns it |
| TenantManagement.NewTenant | src/Signal9.Web.Functions/DashboardFunctions.cs:158-173 | the created tenant has the request's fields, "Organization", Basic and 10 for missing ones, level 1 exactly when a parent is named, and is active and valid |
| TenantManagement.NewTenantDefaults | src/Signal9.Web.Functions/DashboardFunctions.cs:158-173 | a request with only a name gives the default tenant with that name |
| TenantManagement.CreateTenant | src/Signal9.Web.Functions/DashboardFunctions.cs:128-194 | 500 when the body cannot be read; 400 for a missing body or a blank name; otherwise 201 with the new valid tenant |
| TenantManagement.PatchValue | src/Signal9.Web.Functions/DashboardFunctions.cs:252-253 | a value field takes the request's value when it has one and keeps its own otherwise |
| TenantManagement.PatchNullable | src/Signal9.Web.Functions/DashboardFunctions.cs:242-243 | a nullable field takes the request's value when it is not null and keeps its own otherwise |
| TenantManagement.PatchText | src/Signal9.Web.Functions/DashboardFunctions.cs:240-241 | a text field takes the request's value unless that is null, empty or white space |
| TenantManagement.MergeTenant | src/Signal9.Web.Functions/DashboardFunctions.cs:240-257 | field by field: the name is overwritten only by a non-blank value; code, description, e-mail and phone only by a non-null one; plan, agent limit and active flag only when given; every other field is kept; the update time is now; a valid tenant stays valid |
| TenantManagement.MergeTenantLaws | src/Signal9.Web.Functions/DashboardFunctions.cs:240-257 | an empty update only sets the update time; an update is idempotent; two updates compose |
| TenantManagement.SoftDelete | src/Signal9.Web.Functions/DashboardFunctions.cs:322-323 | deleting only deactivates the tenant and sets its update time |
| TenantManagement.Overwrite | src/Signal9.Web.Functions/DashboardFunctions.cs:242-255 | a given value replaces the field; a missing one keeps it |
| TenantManagement.OverwriteNullable | src/Signal9.Web.Functions/DashboardFunctions.cs:242-255 | the same for a nullable field |
| TenantManagement.OverwriteText | src/Signal9.Web.Functions/DashboardFunctions.cs:240-241 | a non-blank text replaces the field; a blank one keeps it |
| TenantManagement.ApplyTenantUpdate | src/Signal9.Web.Functions/DashboardFunctions.cs:240-257 | the statement-by-statement update gives `MergeTenant` |
| TenantManagement.UpdateTenant | src/Signal9.Web.Functions/DashboardFunctions.cs:200-277 | 400 for a malformed id or a null body, 500 for an unreadable body, 404 for an unknown tenant, otherwise 200 with the merged tenant |
| TenantManagement.DeleteTenant | src/Signal9.Web.Functions/DashboardFunctions.cs:283-338 | 400, 404, or 409 when the tenant has agents or child tenants; otherwise 204, and exactly then the soft-deleted tenant is saved |
| TenantManagement.NewAgent | src/Signal9.Web.Functions/DashboardFunctions.cs:529-550 | field by field: the new id and the two clock reads; machine name, domain, OS version, architecture, processor name, MAC address, tenant, group and version copied from the request; "Unknown", "0.0.0.0", 0, 0 and empty bags in place of a missing OS, address, memory, cores, tags and properties, the given value otherwise; online; valid when first seen is not after last seen |
| TenantManagement.NewAgentDefaults | src/Signal9.Web.Functions/DashboardFunctions.cs:529-550 | a request with only a machine name gives the default agent |
| TenantManagement.CreateAgent | src/Signal9.Web.Functions/DashboardFunctions.cs:499-571 | 500 for an unreadable body; 400 for a missing body or blank machine name; otherwise 201 with the new agent |
| TenantManagement.MergeAgent | src/Signal9.Web.Functions/DashboardFunctions.cs:617-650 | field by field: machine name, OS and address are overwritten only by non-blank values; the eight nullable fields (domain to version, including the tenant) only by non-null ones; memory, cores, status, tags and properties only when given; id and first-seen are kept; `LastSeen` is now; a valid agent stays valid |
| TenantManagement.MergeAgentLaws | src/Signal9.Web.Functions/DashboardFunctions.cs:617-650 | an empty update only sets `LastSeen`, and an update is idempotent |
| TenantManagement.ApplyAgentUpdate | src/Signal9.Web.Functions/DashboardFunctions.cs:617-650 | the statement-by-statement update gives `MergeAgent` |
| TenantManagement.Heartbeat | src/Signal9.Web.Functions/DashboardFunctions.cs:761-762 | a status update only changes the status and `LastSeen`, and keeps a valid agent valid |
| TenantManagement.HeartbeatSummary | src/Signal9.Web.Functions/DashboardFunctions.cs:761-762 | after a status update the dashboard shows the agent online exactly when the new status is Online, with that status and time |
| TenantManagement.GetAgents | src/Signal9.Web.Functions/DashboardFunctions.cs:348-391 | 200 with the empty listing for the URL |
| TenantManagement.GetTenantAgents | src/Signal9.Web.Functions/DashboardFunctions.cs:397-446 | 400 for a malformed tenant id, otherwise 200 with the empty listing |
| TenantManagement.GetAgent | src/Signal9.Web.Functions/DashboardFunctions.cs:452-493 | 400 for a malformed id, 404 for an unknown one, otherwise 200 with the agent |
| TenantManagement.GetAgentBySummaryId | src/Signal9.Web.Functions/DashboardFunctions.cs:452-493 | the id the dashboard shows for an agent fetches that agent |
| TenantManagement.UpdateAgent | src/Signal9.Web.Functions/DashboardFunctions.cs:577-670 | 400 for a malformed id or a null body, 500 for an unreadable body, 404 for an unknown agent, otherwise 200 with the merged agent |
| TenantManagement.DeleteAgent | src/Signal9.Web.Functions/DashboardFunctions.cs:676-716 | 400 for a malformed id, 404 for an unknown agent, 204 exactly when the agent exists |
| TenantManagement.UpdateAgentStatus | src/Signal9.Web.Functions/DashboardFunctions.cs:722-782 | 400, 500 or 404 as for the other updates; otherwise 200 with the new status and time, and exactly then the agent with that status is saved |
| Guids.FormatN | src/Signal9.Agent/Services/AgentService.cs:39 | "N" format: 32 lower-case hex digits, the GUID's own |
| Guids.FormatD | src/Signal9.Web/Services/DashboardService.cs:98 | "D" format: 36 characters, hyphens at 8/13/18/23, and the "N" digits between them |
| Guids.ParseGuid | src/Signal9.Web.Functions/DashboardFunctions.cs:89 | `Guid.TryParse` accepts only a trimmed string of 32, 36 or 38 characters: "N" digits, or a "D" string, bare or in braces or parentheses, read by `ParseD` |
| Guids.StripGroupPrefix | src/Signal9.Web.Functions/DashboardFunctions.cs:89 | drops one leading "+" and then one "0x" or "0X" from a group, and nothing else |
| Guids.LegacyGroup | src/Signal9.Web.Functions/DashboardFunctions.cs:89 | a group whose prefixes are followed by hex digits reads as those digits padded with zeros to the group's width |
| Guids.LegacyDigitsOfD | src/Signal9.Web.Functions/DashboardFunctions.cs:89 | with hyphens at 8, 13, 18 and 23 and five legacy-readable groups, the 32 hex digits of the GUID |
| Guids.LegacyGroupOfHex | src/Signal9.Web.Functions/DashboardFunctions.cs:89 | a plain hex group reads the same the legacy way, so the legacy reading only adds strings and never changes a value |
| Guids.LegacyPlus | src/Signal9.Web.Functions/DashboardFunctions.cs:89 | "+234" reads as "0234" |
| Guids.LegacyHex | src/Signal9.Web.Functions/DashboardFunctions.cs:89 | "0x34" and "0X34" read as "0034" |
| Guids.LegacyPlusHex | src/Signal9.Web.Functions/DashboardFunctions.cs:89 | "+0x4" reads as "0004" |
| Guids.ParseGuidOfD | src/Signal9.Web.Functions/DashboardFunctions.cs:89 | a string whose trim has 36 characters is read by the "D" rules alone |
| Guids.LegacyPlusFirstGroup | src/Signal9.Web.Functions/DashboardFunctions.cs:89 | a first group whose leading zero is written "+" reads as the GUID's first 8 digits |
| Guids.LegacyPlusPlainGroup | src/Signal9.Web.Functions/DashboardFunctions.cs:89 | the plain groups after it read as the GUID's own digits |
| Guids.LegacyPlusLastGroup | src/Signal9.Web.Functions/DashboardFunctions.cs:89 | in particular the last group reads as the GUID's last 12 digits |
| Guids.LegacyPlusDigits | src/Signal9.Web.Functions/DashboardFunctions.cs:89 | the five groups together read as the GUID's 32 digits |
| Guids.LegacyPlusD | src/Signal9.Web.Functions/DashboardFunctions.cs:89 | the "D" rules read such a string as the GUID |
| Guids.LegacyPlusDTrimmed | src/Signal9.Web.Functions/DashboardFunctions.cs:89 | such a string holds no white space to trim |
| Guids.ParseLegacyPlusD | src/Signal9.Web.Functions/DashboardFunctions.cs:89 | `Guid.TryParse` reads "+2345678-1234-…" as the GUID whose "D" string has a 0 in place of the "+" |
| Guids.HexDigitsOfFormatN | src/Signal9.Agent/Services/AgentService.cs:39 | "N" digits read back as the GUID |
| Guids.FormatDAlphabet | src/Signal9.Web/Services/DashboardService.cs:98 | a "D" string holds only hyphens and hex digits |
| Guids.FormatDTrimmed | src/Signal9.Web/Services/DashboardService.cs:98 | trimming leaves a "D" string alone |
| Guids.ParseDShape | src/Signal9.Web.Functions/DashboardFunctions.cs:89 | a trimmed "D"-shaped string parses to its digits |
| Guids.ParseFormatD | src/Signal9.Web.Functions/DashboardFunctions.cs:89 | `Guid.TryParse(g.ToString())` gives back `g` |
| Guids.ParseFormatN | src/Signal9.Web.Functions/DashboardFunctions.cs:89 | `Guid.TryParse(g.ToString("N"))` gives back `g` |
| Text.TrimStart | src/Signal9.Web.Functions/DashboardFunctions.cs:89 | removes exactly the leading white space |
| Text.TrimEnd | src/Signal9.Web.Functions/DashboardFunctions.cs:89 | removes exactly the trailing white space |
| Text.TrimNoop | src/Signal9.Web.Functions/DashboardFunctions.cs:89 | a string without white space is its own trim |
| Text.ToLower | src/Signal9.Agent/Services/TelemetryCollector.cs:118 | same length, each letter lowered |
| Text.NatToDecimal | src/Signal9.Agent/Services/AgentService.cs:140-141 | the decimal digits of n denote n |
| Text.IntToDecimal | src/Signal9.Web/Services/DashboardService.cs:151 | a number prints as digits, with a leading `-` when negative |
| Text.TryParseInt32 | src/Signal9.Web.Functions/DashboardFunctions.cs:46-47 | a parsed value is within the 32-bit range |
| Text.TrimEndAppendNuls | src/Signal9.Web.Functions/DashboardFunctions.cs:46-47 | trailing U+0000 characters vanish under `TrimEnd`, however many there are |
| Text.TryParseIgnoresTrailingNuls | src/Signal9.Web.Functions/DashboardFunctions.cs:46-47 | `int.TryParse` reads a string followed by U+0000 characters as the string alone |
| Text.TryParseInt32WithNuls | src/Signal9.Web.Functions/DashboardFunctions.cs:46-47 | `"12\0"` reads as 12: every 32-bit number followed by U+0000 characters reads back as itself |
| Text.ParseIntegerOfDecimal | src/Signal9.Web.Functions/DashboardFunctions.cs:46-47 | a printed integer parses back to itself |
| Text.TryParseInt32RoundTrip | src/Signal9.Web.Functions/DashboardFunctions.cs:46-47 | `int.TryParse(n.ToString())` gives n for every 32-bit n |
| QueryStrings.IndexOf | src/Signal9.Web.Functions/DashboardFunctions.cs:39 | the first position of a character, or the length |
| QueryStrings.SplitAt | src/Signal9.Web.Functions/DashboardFunctions.cs:39 | splitting at a separator peels off the part before it |
| QueryStrings.EntryOf | src/Signal9.Web.Functions/DashboardFunctions.cs:39 | a piece without `=` has no name; otherwise it is name, `=`, value |
| QueryStrings.ParseQueryString | src/Signal9.Web.Functions/DashboardFunctions.cs:39 | an empty query has no entries |
| QueryStrings.Lookup | src/Signal9.Web.Functions/DashboardFunctions.cs:40-44 | `query[name]` is null exactly when no entry has that name, ignoring case |
| QueryStrings.ValuesOfEmpty | src/Signal9.Web.Functions/DashboardFunctions.cs:40-44 | no value is collected exactly when no entry matches |
| QueryStrings.ValuesOfSingle | src/Signal9.Web.Functions/DashboardFunctions.cs:40-44 | a single matching entry gives its value |
| QueryStrings.UriQuery | src/Signal9.Web.Functions/DashboardFunctions.cs:39 | `Uri.Query` is empty or starts with `?` |
| QueryStrings.UriPath | src/Signal9.Web.Functions/DashboardFunctions.cs:39 | the path is a prefix of the URL |
| QueryStrings.SplitEncode | src/Signal9.Web/Services/DashboardService.cs:149-151 | an encoded query splits at `&` into its pairs |
| QueryStrings.EntryOfPair | src/Signal9.Web/Services/DashboardService.cs:149-151 | `name=value` reads as that entry |
| QueryStrings.ParseEncode | src/Signal9.Web/Services/DashboardService.cs:149-151 | parsing an encoded query gives its pairs in order |
| QueryStrings.QueryRoundTrip | src/Signal9.Web/Services/DashboardService.cs:149-151 | with distinct names, each name reads back its own value and an absent name reads null |
| QueryStrings.UriParts | src/Signal9.Web/Services/DashboardService.cs:149-151 | `path?query` splits into that path and that query |
| QueryStrings.UriWithoutQuery | src/Signal9.Web/Services/DashboardService.cs:97-99 | a URL without `?` has no query |
| QueryStrings.PlainPath | src/Signal9.Web/Services/DashboardService.cs:97 | joining two plain pieces gives a plain base |
| QueryStrings.SingleQuery | src/Signal9.Web/Services/DashboardService.cs:97-99 | a one-parameter URL reads back its value, and no other name |
| QueryStrings.PairQuery | src/Signal9.Web/Services/DashboardService.cs:149-151 | a two-parameter URL reads back both values |

## Left out

- SignalR plumbing is not modelled: the hub connection object, the `On(...)` registrations and the `AgentHub`. The stub command handlers (`UpdateConfiguration`, `CollectTelemetry` from the hub, `Restart`, `Shutdown`) and `OnConnectionStatusChanged` only log, so they are left out too.
- `SystemInfoProvider` is not part of this model. Its result, or the exception it throws, is a parameter.
- JSON serialisation, HTTP response writing and logging are left out. Deserialisation can leave a non-nullable string such as `Tenant.Name`, `Tenant.TenantType` or `TenantNode.Name` null; the model's strings are never null, so the source's guards against that (`currentTenant?.Name ?? "No Tenants"`, DashboardService.cs:52) reduce to the non-null case. A 500 caused by a failure while writing a response is not modelled; a 500 caused by an unreadable body is.
- Clocks (`DateTime.UtcNow`) and `Guid.NewGuid()` are parameters. The second `UtcNow` read in the catch branch of `CollectTelemetryAsync` is taken to equal the first.
- Timers firing and the `Task.Delay` waits are not modelled. The loop returns the waits it would take, in seconds, as values. The one-second keep-alive wait inside a connected session is not among them.
- AgentRuntime.AgentService.HandleReconnection: cancellation of the wait is not modelled.
- AgentRuntime.AgentService.Run: the loop is run over a finite sequence of session outcomes, not until cancellation. The session that requests the stop is the last one consumed.
- The agent has no outgoing queue: it sends through `InvokeAsync` directly. The reconnect wait is linear, `ReconnectDelay * attempts` seconds (AgentService.cs:292-306).
- AgentRuntime.AgentService.Run: with a negative `ReconnectDelay`, `HeartbeatInterval` or `TelemetryInterval`, the source throws and the model does not. `Task.Delay` rejects a negative wait (lines 69 and 305); the catch's own wait then throws out of `ExecuteAsync`. The `Timer` constructor rejects a negative period (lines 162-166). The model returns these negative numbers as waits and periods. `ValidConfiguration` names the configurations where no such throw happens; `DelaysNonNegative` and `BackoffNegative` show where the line lies.
- AgentRuntime.AgentService.HandleReconnection: a negative wait is returned instead of thrown (see `Run`).
- AgentRuntime.AgentService.StartTimers: a negative interval becomes a timer instead of an exception (see `Run`).
- AgentRuntime.BackoffBounded: it requires a non-negative `ReconnectDelay`; for a negative one the source throws (see `Run`), and `BackoffNegative` covers that case.
- AgentRuntime.AgentService.RunSession: a lost connection is taken to go through the `Reconnecting` handler before the loop moves on, and the old connection's later `Reconnected` or `Closed` handler is not modelled. In the source, the automatic reconnect of the old connection runs concurrently with the loop's new connection: its `Reconnected` handler can reset the counter, register and restart the timers at any time. `OnReconnected` and `OnClosed` model each handler on its own.
- Guids.ParseGuid: the "N", "D", "B" and "P" formats are modelled, with the legacy "+"/"0x" group prefixes of D, B and P. The "X" format (`{0x…,0x…,0x…,{0x…,…}}`) is not modelled: such a string is refused with 400 where the source would look the id up.
- Text.ToLower: only ASCII letters are lowered; culture-specific case mapping is not modelled.
- `int` and `long` fields are unbounded integers. Only `int.TryParse` checks the 32-bit range.
- Text.TryParseInt32: `NumberStyles.Integer` is modelled: number white space around an optionally signed digit run, and U+0000 characters after it. Culture-specific signs are not modelled: the invariant "-" and "+" are the only signs.
- QueryStrings.ParseQueryString: percent- and plus-decoding and `Uri` normalisation are not modelled. Every URL the dashboard builds holds only characters that need no decoding.
- TenantHierarchy.Forest: the recursion is bounded by the number of tenants. With distinct ids, `BuildChildren` always terminates: a tenant on a parent cycle is never reached from a root and is simply missing. It recurses without end only when a tenant lies below another with the same id (for example A with id x and no parent, and B with id x and parent x). The resulting `StackOverflowException` cannot be caught by the handler's catch (DashboardService.cs:86-90). With distinct ids the bound never cuts a branch (`HierarchyFaithful`); `SelfParentRecursesAgain` shows the self-call that makes the unbounded recursion endless.
- Dashboard.GetDashboardData: the catch around the four fetches is unreachable, because each fetch already catches its own errors. It is not modelled. The example dashboard literal is a parameter (`sample`).
- Dashboard.GetAgents, Dashboard.GetDashboardStats and Dashboard.GetRecentActivities are modelled as functions without contracts of their own. `GetDashboardData` states how they are combined.
- `NegotiateAsync` (the SignalR connection negotiation endpoint) is left out: it returns the binding's connection info.
- The list endpoints read `isActive`, `parentTenantId`, `tenantType`, `status` and `groupName` but never use them, so they are left out. The listings are the source's empty stub lists. Their `Tenants` / `Agents` property is called `Items` here.
- Entities loaded by the handlers are values passed in through `find`. Saving is a returned value (`saved`), not an update of a store. The source has no store either, so every lookup returns null there.
- TenantManagement.UpdateAgentStatus: a body whose JSON omits `Status` deserialises to `Online`, the request's default. The model receives the deserialised request.
- TenantManagement.DeleteAgent: like the source, it answers 204 without removing anything.

## Findings

| source | as written | input that shows it | evidently intended | confidence | as-written member | corrected member |
|---|---|---|---|---|---|---|
| src/Signal9.Agent/Services/AgentService.cs:295-298 | past `MaxReconnectAttempts`, `HandleReconnection` logs "Max reconnection attempts reached. Shutting down." and returns; the loop of `ExecuteAsync` then reconnects at once, forever | eleven lost connections in a row under the defaults: the eleventh and every later one is followed by no wait, and the service keeps running | the service stops once the counter passes the cap | high (not executed) | AgentRuntime.DropsPastCapNeverShutDown | AgentRuntime.IntendedShutsDown |

The operations themselves follow the code as written: `Run`, `Delays` and `SessionsUsed` keep reconnecting past the cap. `IntendedSessionsUsed` states the evidently intended loop, and `IntendedShutsDown` proves that it ends at the first lost connection past the cap.
