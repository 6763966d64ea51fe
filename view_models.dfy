/** The dashboard's view models (Signal9.Web/Models/DashboardViewModels.cs). `double`
    fields are `real`: the dashboard only copies them or sets them to zero. */
module ViewModels {
  import opened Common
  import opened Guids

  /** `TenantNodeViewModel`; `IsExpanded` starts out true. */
  datatype TenantNode = TenantNode(
    TenantId: Guid,
    Name: string,
    Type: string,
    Level: int,
    AgentCount: int,
    OnlineAgentCount: int,
    IsActive: bool,
    IsExpanded: bool,
    Children: seq<TenantNode>)

  /** `TenantHierarchyViewModel`. */
  datatype TenantHierarchyView = TenantHierarchyView(
    CurrentTenantId: Guid,
    CurrentTenantName: string,
    CurrentTenantType: string,
    TenantTree: seq<TenantNode>,
    HierarchyPath: string)

  /** `AgentSummaryViewModel`. */
  datatype AgentSummary = AgentSummary(
    AgentId: string,
    MachineName: string,
    OperatingSystem: string,
    IsOnline: bool,
    LastSeen: DateTime,
    Status: string,
    CpuUsage: real,
    MemoryUsage: real,
    TenantName: string,
    TenantId: Guid)

  /** `DashboardStatsViewModel`. */
  datatype DashboardStats = DashboardStats(
    TotalAgents: int,
    OnlineAgents: int,
    OfflineAgents: int,
    TotalTenants: int,
    ActiveTenants: int,
    PendingAlerts: int,
    AvgCpuUsage: real,
    AvgMemoryUsage: real)

  /** `new DashboardStatsViewModel()`: every figure zero. */
  const EmptyStats: DashboardStats := DashboardStats(0, 0, 0, 0, 0, 0, 0.0, 0.0)

  /** `RecentActivityViewModel`; `Severity` starts out "Info". */
  datatype RecentActivity = RecentActivity(
    Timestamp: DateTime,
    ActivityType: string,
    Description: string,
    AgentName: string,
    TenantName: string,
    Severity: string)

  /** `DashboardViewModel`. */
  datatype DashboardView = DashboardView(
    TenantHierarchy: TenantHierarchyView,
    Agents: seq<AgentSummary>,
    Stats: DashboardStats,
    RecentActivities: seq<RecentActivity>)
}
