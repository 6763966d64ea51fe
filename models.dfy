/** The shared data carriers: the entities of Signal9.Shared/Models and the DTOs of
    Signal9.Shared/DTOs that the core reads or builds. Floating-point fields are `real`:
    the core only copies them, it never computes with them. */
module Models {
  import opened Common
  import opened Guids

  /** A `Dictionary<string, object>` value, kept as its JSON text. */
  datatype PropertyValue = PropertyValue(json: string)

  datatype TenantPlan = Basic | Professional | Enterprise | Custom

  /** `Tenant` (Models/Tenant.cs); the EF navigation properties are not data. */
  datatype Tenant = Tenant(
    TenantId: Guid,
    Name: string,
    Code: Option<string>,
    Description: Option<string>,
    CreatedAt: DateTime,
    UpdatedAt: Option<DateTime>,
    IsActive: bool,
    ParentTenantId: Option<Guid>,
    TenantType: string,
    Level: int,
    HierarchyPath: Option<string>,
    ContactEmail: Option<string>,
    ContactPhone: Option<string>,
    Plan: TenantPlan,
    MaxAgents: int,
    Settings: map<string, PropertyValue>,
    Metadata: map<string, PropertyValue>)

  datatype AgentStatus = Online | Offline | Maintenance | Error | Unregistered {
    /** `AgentStatus.ToString()`: the member name. */
    function Name(): string {
      match this
      case Online => "Online"
      case Offline => "Offline"
      case Maintenance => "Maintenance"
      case Error => "Error"
      case Unregistered => "Unregistered"
    }
  }

  /** Different statuses print differently. */
  lemma StatusNamesDistinct(x: AgentStatus, y: AgentStatus)
    ensures x.Name() == y.Name() ==> x == y
  {
    if x.Name() == y.Name() {
      assert |x.Name()| == |y.Name()|;
    }
  }

  /** `Agent` (Models/Agent.cs). */
  datatype Agent = Agent(
    AgentId: Guid,
    MachineName: string,
    Domain: Option<string>,
    OperatingSystem: string,
    OSVersion: Option<string>,
    Architecture: Option<string>,
    TotalMemoryMB: int,
    ProcessorCores: int,
    ProcessorName: Option<string>,
    IpAddress: string,
    MacAddress: Option<string>,
    FirstSeen: DateTime,
    LastSeen: DateTime,
    Status: AgentStatus,
    Version: Option<string>,
    TenantId: Option<Guid>,
    GroupName: Option<string>,
    Tags: map<string, PropertyValue>,
    CustomProperties: map<string, PropertyValue>)

  datatype DriveInfoDto = DriveInfoDto(
    Name: string, DriveType: string, TotalSize: int, FreeSpace: int, UsagePercent: real, IsReady: bool)

  /** `SystemInfoDto`. Its string properties are declared non-nullable but may still hold
      `null`, which the registration payload guards against with `??`. */
  datatype SystemInfoDto = SystemInfoDto(
    OperatingSystem: Option<string>,
    Architecture: Option<string>,
    ProcessorCores: int,
    TotalMemoryMB: int,
    AvailableMemory: int,
    MachineName: Option<string>,
    Domain: Option<string>,
    OSVersion: Option<string>,
    ProcessorName: Option<string>,
    IpAddress: Option<string>,
    MacAddress: Option<string>,
    Version: Option<string>,
    Uptime: int,
    Drives: seq<DriveInfoDto>)

  /** `new SystemInfoDto()`: empty strings and zeros. */
  const EmptySystemInfo: SystemInfoDto :=
    SystemInfoDto(Some(""), Some(""), 0, 0, 0, Some(""), Some(""), Some(""), Some(""), Some(""), Some(""), Some(""), 0, [])

  datatype PerformanceMetricsDto = PerformanceMetricsDto(
    CpuUsagePercent: real,
    MemoryUsedMB: int,
    MemoryAvailableMB: int,
    DiskUsagePercent: real,
    DiskFreeSpaceGB: int,
    NetworkBytesInPerSec: real,
    NetworkBytesOutPerSec: real,
    ProcessCount: int,
    ServiceCount: int,
    SystemUptime: real,
    Timestamp: DateTime)

  /** A boxed value stored in `TelemetryDto.CustomMetrics`. */
  datatype MetricValue = Number(r: real) | Integer(i: int) | Text(s: string) | Instant(t: DateTime)

  /** `TelemetryDto`. */
  datatype TelemetryDto = TelemetryDto(
    AgentId: string,
    TenantCode: string,
    TenantId: Option<Guid>,
    Timestamp: DateTime,
    CpuUsage: real,
    MemoryUsage: real,
    DiskUsage: real,
    NetworkIn: real,
    NetworkOut: real,
    SystemInfo: SystemInfoDto,
    CustomMetrics: map<string, MetricValue>)

  /** `AgentRegistrationDto`. */
  datatype AgentRegistrationDto = AgentRegistrationDto(
    AgentId: string,
    TenantCode: string,
    MachineName: Option<string>,
    OperatingSystem: Option<string>,
    Architecture: Option<string>,
    Version: string,
    LastSeen: DateTime,
    IsOnline: bool,
    TenantId: Option<Guid>,
    Tags: map<string, string>)

  /** `CommandDto`. `CommandType` is declared non-nullable but a `null` can arrive from JSON. */
  datatype CommandDto = CommandDto(
    CommandId: string,
    CommandType: Option<string>,
    Parameters: Option<map<string, PropertyValue>>,
    Priority: int,
    ExpiresAt: Option<DateTime>,
    Metadata: map<string, PropertyValue>)

  /** `CommandResultDto`. */
  datatype CommandResultDto = CommandResultDto(
    CommandId: string,
    Status: string,
    Result: Option<string>,
    ErrorMessage: Option<string>,
    ExitCode: Option<int>,
    ExecutedAt: DateTime,
    CompletedAt: DateTime)

  /** `CreateTenantRequest`; `Name` may be `null` after deserialisation. */
  datatype CreateTenantRequest = CreateTenantRequest(
    Name: Option<string>,
    Code: Option<string>,
    Description: Option<string>,
    ParentTenantId: Option<Guid>,
    TenantType: Option<string>,
    ContactEmail: Option<string>,
    ContactPhone: Option<string>,
    Plan: Option<TenantPlan>,
    MaxAgents: Option<int>)

  /** `UpdateTenantRequest`: every field optional. */
  datatype UpdateTenantRequest = UpdateTenantRequest(
    Name: Option<string>,
    Code: Option<string>,
    Description: Option<string>,
    ContactEmail: Option<string>,
    ContactPhone: Option<string>,
    Plan: Option<TenantPlan>,
    MaxAgents: Option<int>,
    IsActive: Option<bool>)

  /** `CreateAgentRequest`; `MachineName` may be `null` after deserialisation. */
  datatype CreateAgentRequest = CreateAgentRequest(
    MachineName: Option<string>,
    Domain: Option<string>,
    OperatingSystem: Option<string>,
    OSVersion: Option<string>,
    Architecture: Option<string>,
    TotalMemoryMB: Option<int>,
    ProcessorCores: Option<int>,
    ProcessorName: Option<string>,
    IpAddress: Option<string>,
    MacAddress: Option<string>,
    TenantId: Option<Guid>,
    GroupName: Option<string>,
    Version: Option<string>,
    Tags: Option<map<string, PropertyValue>>,
    CustomProperties: Option<map<string, PropertyValue>>)

  /** `UpdateAgentRequest`: every field optional. */
  datatype UpdateAgentRequest = UpdateAgentRequest(
    MachineName: Option<string>,
    Domain: Option<string>,
    OperatingSystem: Option<string>,
    OSVersion: Option<string>,
    Architecture: Option<string>,
    TotalMemoryMB: Option<int>,
    ProcessorCores: Option<int>,
    ProcessorName: Option<string>,
    IpAddress: Option<string>,
    MacAddress: Option<string>,
    TenantId: Option<Guid>,
    GroupName: Option<string>,
    Version: Option<string>,
    Status: Option<AgentStatus>,
    Tags: Option<map<string, PropertyValue>>,
    CustomProperties: Option<map<string, PropertyValue>>)

  /** `UpdateAgentStatusRequest`. */
  datatype UpdateAgentStatusRequest = UpdateAgentStatusRequest(Status: AgentStatus)
}
