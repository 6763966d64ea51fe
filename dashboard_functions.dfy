/** `TenantManagementFunctions` (Signal9.Web.Functions/DashboardFunctions.cs): the HTTP
    functions behind the dashboard's tenant and agent pages. Each handler validates its
    route id and body, looks the entity up, and answers with a status code and either a
    JSON body or a plain-text message.

    The repository is an input: `find` is what a lookup by the parsed id returns, and
    the dependency checks of a tenant deletion are predicates on that id. The clock and
    `Guid.NewGuid()` are parameters too. A request body is what deserialisation gives:
    a value, `null`, or an exception. */
module TenantManagement {
  import opened Common
  import opened Text
  import opened Guids
  import opened Models
  import opened QueryStrings
  import Dashboard

  // ---------------------------------------------------------------- replies

  datatype HttpStatus = OK | Created | NoContent | BadRequest | NotFound | Conflict | InternalServerError {
    function Code(): int {
      match this
      case OK => 200
      case Created => 201
      case NoContent => 204
      case BadRequest => 400
      case NotFound => 404
      case Conflict => 409
      case InternalServerError => 500
    }
  }

  /** What a handler writes into its response: a serialised value, a plain-text
      message, or no content at all. */
  datatype Reply<T> = Json(status: HttpStatus, value: T) | Plain(status: HttpStatus, message: string) | NoBody(status: HttpStatus)

  /** The anonymous `{ Items, Page, PageSize, TotalCount, TotalPages }` of the list
      endpoints. */
  datatype Listing<T> = Listing(Items: seq<T>, Page: int, PageSize: int, TotalCount: int, TotalPages: int)

  /** The anonymous `{ Status, LastSeen }` of the status endpoint. */
  datatype StatusReply = StatusReply(Status: AgentStatus, LastSeen: DateTime)

  const InvalidTenantId: string := "Invalid tenant ID format"
  const InvalidAgentId: string := "Invalid agent ID format"

  // ---------------------------------------------------------------- pagination

  const DefaultPage: int := 1
  const DefaultPageSize: int := 20
  const MaxPageSize: int := 100

  /** `int.TryParse(pageStr, out var p) ? Math.Max(1, p) : 1`. */
  function PageOf(pageStr: Option<string>): (page: int)
    ensures 1 <= page <= Int32Max
    ensures TryParseInt32(pageStr).None? ==> page == DefaultPage
    ensures TryParseInt32(pageStr).Some? ==>
      page == if TryParseInt32(pageStr).value < 1 then 1 else TryParseInt32(pageStr).value
  {
    match TryParseInt32(pageStr)
    case Some(p) => if p < 1 then 1 else p
    case None => 1
  }

  /** `int.TryParse(pageSizeStr, out var ps) ? Math.Max(1, Math.Min(100, ps)) : 20`. */
  function PageSizeOf(pageSizeStr: Option<string>): (size: int)
    ensures 1 <= size <= MaxPageSize
    ensures TryParseInt32(pageSizeStr).None? ==> size == DefaultPageSize
    ensures TryParseInt32(pageSizeStr).Some? && 1 <= TryParseInt32(pageSizeStr).value <= MaxPageSize ==>
      size == TryParseInt32(pageSizeStr).value
    ensures TryParseInt32(pageSizeStr).Some? && TryParseInt32(pageSizeStr).value > MaxPageSize ==> size == MaxPageSize
    ensures TryParseInt32(pageSizeStr).Some? && TryParseInt32(pageSizeStr).value < 1 ==> size == 1
  {
    match TryParseInt32(pageSizeStr)
    case Some(ps) => if ps > MaxPageSize then MaxPageSize else if ps < 1 then 1 else ps
    case None => DefaultPageSize
  }

  /** A page number written in decimal reads back clamped to at least 1. */
  lemma PageRoundTrip(n: int)
    requires Int32Min <= n <= Int32Max
    ensures PageOf(Some(IntToDecimal(n))) == if n < 1 then 1 else n
  {
    TryParseInt32RoundTrip(n);
  }

  /** A page size written in decimal reads back clamped to 1..100. */
  lemma PageSizeRoundTrip(n: int)
    requires Int32Min <= n <= Int32Max
    ensures PageSizeOf(Some(IntToDecimal(n))) == if n < 1 then 1 else if n > MaxPageSize then MaxPageSize else n
  {
    TryParseInt32RoundTrip(n);
  }

  /** The page and size a listing echoes back, sent again, select the same page. */
  lemma PaginationStable(pageStr: Option<string>, pageSizeStr: Option<string>)
    ensures PageOf(Some(IntToDecimal(PageOf(pageStr)))) == PageOf(pageStr)
    ensures PageSizeOf(Some(IntToDecimal(PageSizeOf(pageSizeStr)))) == PageSizeOf(pageSizeStr)
  {
    PageRoundTrip(PageOf(pageStr));
    PageSizeRoundTrip(PageSizeOf(pageSizeStr));
  }

  lemma PageLead()
    ensures "?" + "page" + "=" == "?page="
  {
  }

  /** A request URL carrying `page=n` is answered with page `n` clamped to at least 1. */
  lemma PagedUrl(prefix: string, n: int)
    requires PlainBase(prefix)
    requires Int32Min <= n <= Int32Max
    ensures PageOf(QueryValue(prefix + "?page=" + IntToDecimal(n), "page")) == if n < 1 then 1 else n
  {
    var digits := IntToDecimal(n);
    Dashboard.PlainValues(Empty, n);
    SingleQuery(prefix, "page", digits, "page");
    QueryLead(prefix, "page", digits);
    PageLead();
    PageRoundTrip(n);
  }

  /** The listing of the list endpoints: the repository query is not written yet, so
      it is empty, with the requested pagination. */
  function EmptyListing<T>(url: string): (l: Listing<T>)
    ensures l.Items == [] && l.TotalCount == 0 && l.TotalPages == 0
    ensures 1 <= l.Page && 1 <= l.PageSize <= MaxPageSize
    ensures l.Page == PageOf(QueryValue(url, "page")) && l.PageSize == PageSizeOf(QueryValue(url, "pageSize"))
  {
    Listing([], PageOf(QueryValue(url, "page")), PageSizeOf(QueryValue(url, "pageSize")), 0, 0)
  }

  // ---------------------------------------------------------------- tenant entities

  /** `new Tenant()` with its property initialisers; `NewGuid()` and `UtcNow` are the
      parameters. */
  function DefaultTenant(id: Guid, now: DateTime): Tenant {
    Tenant(id, "", None, None, now, None, true, None, "Organization", 0, None, None, None, Basic, 10, map[], map[])
  }

  /** What the handlers keep true of a tenant: it has a real name, and its level says
      whether it has a parent. */
  predicate ValidTenant(t: Tenant) {
    && !IsNullOrWhiteSpace(Some(t.Name))
    && t.Level == (if t.ParentTenantId.Some? then 1 else 0)
  }

  /** The tenant `CreateTenantAsync` builds from an accepted request: the request's
      fields, "Organization", `Basic` and 10 where they are missing, level 1 exactly
      when a parent is named, created now and active. */
  function NewTenant(req: CreateTenantRequest, id: Guid, now: DateTime): (t: Tenant)
    requires !IsNullOrWhiteSpace(req.Name)
    ensures ValidTenant(t)
    ensures t.TenantId == id && t.Name == req.Name.value && t.CreatedAt == now && t.UpdatedAt.None? && t.IsActive
    ensures t.Code == req.Code && t.Description == req.Description && t.ParentTenantId == req.ParentTenantId
    ensures t.ContactEmail == req.ContactEmail && t.ContactPhone == req.ContactPhone
    ensures req.TenantType.Some? ==> t.TenantType == req.TenantType.value
    ensures req.TenantType.None? ==> t.TenantType == "Organization"
    ensures req.Plan.Some? ==> t.Plan == req.Plan.value
    ensures req.Plan.None? ==> t.Plan == Basic
    ensures req.MaxAgents.Some? ==> t.MaxAgents == req.MaxAgents.value
    ensures req.MaxAgents.None? ==> t.MaxAgents == 10
    ensures t.HierarchyPath.None? && t.Settings == map[] && t.Metadata == map[]
  {
    DefaultTenant(id, now).(
      Name := req.Name.value,
      Code := req.Code,
      Description := req.Description,
      ParentTenantId := req.ParentTenantId,
      TenantType := req.TenantType.GetOr("Organization"),
      Level := if req.ParentTenantId.Some? then 1 else 0,
      ContactEmail := req.ContactEmail,
      ContactPhone := req.ContactPhone,
      Plan := req.Plan.GetOr(Basic),
      MaxAgents := req.MaxAgents.GetOr(10),
      CreatedAt := now,
      IsActive := true)
  }

  /** The create-time fallbacks agree with the entity's own initialisers: a request
      naming only the tenant creates exactly a default tenant with that name. */
  lemma NewTenantDefaults(name: string, id: Guid, now: DateTime)
    requires !IsNullOrWhiteSpace(Some(name))
    ensures NewTenant(CreateTenantRequest(Some(name), None, None, None, None, None, None, None, None), id, now)
         == DefaultTenant(id, now).(Name := name)
  {
  }

  // ---------------------------------------------------------------- partial updates

  /** A field after `if (u.X.HasValue) e.X = u.X.Value;`: the request's value when it
      carries one, the entity's own otherwise. */
  ghost predicate Patched<T>(before: T, patch: Option<T>, after: T) {
    (patch.Some? ==> after == patch.value) && (patch.None? ==> after == before)
  }

  /** A nullable field after `if (u.X != null) e.X = u.X;`. */
  ghost predicate PatchedNullable<T>(before: Option<T>, patch: Option<T>, after: Option<T>) {
    (patch.Some? ==> after == patch) && (patch.None? ==> after == before)
  }

  /** A text field after `if (!string.IsNullOrWhiteSpace(u.X)) e.X = u.X;`: a blank
      request value leaves the entity's own. */
  ghost predicate PatchedText(before: string, patch: Option<string>, after: string) {
    (!IsNullOrWhiteSpace(patch) ==> after == patch.value) && (IsNullOrWhiteSpace(patch) ==> after == before)
  }

  /** `u.X ?? e.X` for a value-typed field. */
  function PatchValue<T>(before: T, patch: Option<T>): (after: T)
    ensures Patched(before, patch, after)
  {
    patch.GetOr(before)
  }

  /** `u.X ?? e.X` for a nullable field. */
  function PatchNullable<T>(before: Option<T>, patch: Option<T>): (after: Option<T>)
    ensures PatchedNullable(before, patch, after)
  {
    patch.Or(before)
  }

  /** A text field that a blank request value does not overwrite. */
  function PatchText(before: string, patch: Option<string>): (after: string)
    ensures PatchedText(before, patch, after)
  {
    if IsNullOrWhiteSpace(patch) then before else patch.value
  }

  /** The partial update of `UpdateTenantAsync`: a name only when it is not blank, every
      other field only when the request carries it, and the update time always. */
  function MergeTenant(t: Tenant, u: UpdateTenantRequest, now: DateTime): (r: Tenant)
    ensures r.UpdatedAt == Some(now)
    ensures PatchedText(t.Name, u.Name, r.Name)
    ensures PatchedNullable(t.Code, u.Code, r.Code) && PatchedNullable(t.Description, u.Description, r.Description)
    ensures PatchedNullable(t.ContactEmail, u.ContactEmail, r.ContactEmail)
    ensures PatchedNullable(t.ContactPhone, u.ContactPhone, r.ContactPhone)
    ensures Patched(t.Plan, u.Plan, r.Plan) && Patched(t.MaxAgents, u.MaxAgents, r.MaxAgents)
    ensures Patched(t.IsActive, u.IsActive, r.IsActive)
    ensures r.TenantId == t.TenantId && r.CreatedAt == t.CreatedAt && r.ParentTenantId == t.ParentTenantId
    ensures r.TenantType == t.TenantType && r.Level == t.Level && r.HierarchyPath == t.HierarchyPath
    ensures r.Settings == t.Settings && r.Metadata == t.Metadata
    ensures ValidTenant(t) ==> ValidTenant(r)
  {
    t.(
      Name := PatchText(t.Name, u.Name),
      Code := PatchNullable(t.Code, u.Code),
      Description := PatchNullable(t.Description, u.Description),
      ContactEmail := PatchNullable(t.ContactEmail, u.ContactEmail),
      ContactPhone := PatchNullable(t.ContactPhone, u.ContactPhone),
      Plan := PatchValue(t.Plan, u.Plan),
      MaxAgents := PatchValue(t.MaxAgents, u.MaxAgents),
      IsActive := PatchValue(t.IsActive, u.IsActive),
      UpdatedAt := Some(now))
  }

  /** The request that changes nothing. */
  const NoTenantChange: UpdateTenantRequest := UpdateTenantRequest(None, None, None, None, None, None, None, None)

  /** Applying one update after another is applying a single update that takes each
      field from the later request when it carries one. */
  function CombineTenantUpdates(first: UpdateTenantRequest, second: UpdateTenantRequest): UpdateTenantRequest {
    UpdateTenantRequest(
      if IsNullOrWhiteSpace(second.Name) then first.Name else second.Name,
      second.Code.Or(first.Code),
      second.Description.Or(first.Description),
      second.ContactEmail.Or(first.ContactEmail),
      second.ContactPhone.Or(first.ContactPhone),
      second.Plan.Or(first.Plan),
      second.MaxAgents.Or(first.MaxAgents),
      second.IsActive.Or(first.IsActive))
  }

  /** An empty update only touches the update time; repeating an update changes nothing
      more; two updates in a row are their combination. */
  lemma MergeTenantLaws(t: Tenant, u: UpdateTenantRequest, v: UpdateTenantRequest, now: DateTime, later: DateTime)
    ensures MergeTenant(t, NoTenantChange, now) == t.(UpdatedAt := Some(now))
    ensures MergeTenant(MergeTenant(t, u, now), u, later) == MergeTenant(t, u, later)
    ensures MergeTenant(MergeTenant(t, u, now), v, later) == MergeTenant(t, CombineTenantUpdates(u, v), later)
  {
  }

  /** The soft delete of `DeleteTenantAsync`: inactive from now on, nothing else
      touched. */
  function SoftDelete(t: Tenant, now: DateTime): (r: Tenant)
    ensures !r.IsActive && r.UpdatedAt == Some(now)
    ensures r.(IsActive := t.IsActive, UpdatedAt := t.UpdatedAt) == t
    ensures ValidTenant(t) ==> ValidTenant(r)
  {
    t.(IsActive := false, UpdatedAt := Some(now))
  }

  // ---------------------------------------------------------------- tenant handlers

  /** `GetTenantsAsync`: always 200 with the listing. */
  function GetTenants(url: string): (reply: Reply<Listing<Tenant>>)
    ensures reply.Json? && reply.status == OK && reply.value == EmptyListing(url)
  {
    Json(OK, EmptyListing(url))
  }

  /** `GetTenantAsync`: 400 for an id that is not a GUID, 404 when no tenant has it,
      otherwise 200 with the tenant. */
  function GetTenant(tenantId: string, find: Guid -> Option<Tenant>): (reply: Reply<Tenant>)
    ensures ParseGuid(tenantId).None? ==> reply == Plain(BadRequest, InvalidTenantId)
    ensures ParseGuid(tenantId).Some? && find(ParseGuid(tenantId).value).None? ==> reply == Plain(NotFound, "Tenant not found")
    ensures reply.Json? <==> ParseGuid(tenantId).Some? && find(ParseGuid(tenantId).value).Some?
    ensures reply.Json? ==> reply == Json(OK, find(ParseGuid(tenantId).value).value)
  {
    match ParseGuid(tenantId)
    case None => Plain(BadRequest, InvalidTenantId)
    case Some(id) =>
      match find(id)
      case None => Plain(NotFound, "Tenant not found")
      case Some(t) => Json(OK, t)
  }

  /** A tenant is found under the "D" string of its own id. */
  lemma GetTenantById(t: Tenant, find: Guid -> Option<Tenant>)
    requires find(t.TenantId) == Some(t)
    ensures GetTenant(FormatD(t.TenantId), find) == Json(OK, t)
  {
    ParseFormatD(t.TenantId);
  }

  /** `CreateTenantAsync`: 500 when the body cannot be read, 400 when it is `null` or
      names no tenant, otherwise 201 with the new tenant. */
  function CreateTenant(body: Outcome<Option<CreateTenantRequest>>, newId: Guid, now: DateTime): (reply: Reply<Tenant>)
    ensures body.Threw? ==> reply == Plain(InternalServerError, "Failed to create tenant")
    ensures body.Returned? && (body.value.None? || IsNullOrWhiteSpace(body.value.value.Name)) ==>
      reply == Plain(BadRequest, "Invalid tenant data. Name is required.")
    ensures reply.Json? <==> body.Returned? && body.value.Some? && !IsNullOrWhiteSpace(body.value.value.Name)
    ensures reply.Json? ==> reply == Json(Created, NewTenant(body.value.value, newId, now)) && ValidTenant(reply.value)
  {
    match body
    case Threw(_) => Plain(InternalServerError, "Failed to create tenant")
    case Returned(request) =>
      if request.None? || IsNullOrWhiteSpace(request.value.Name) then
        Plain(BadRequest, "Invalid tenant data. Name is required.")
      else
        Json(Created, NewTenant(request.value, newId, now))
  }

  // ---------------------------------------------------------------- field assignments

  /** `if (patch.HasValue) field = patch.Value`. */
  method Overwrite<T>(current: T, patch: Option<T>) returns (r: T)
    ensures patch.Some? ==> r == patch.value
    ensures patch.None? ==> r == current
  {
    r := current;
    if patch.Some? {
      r := patch.value;
    }
  }

  /** `if (patch != null) field = patch` for a nullable field. */
  method OverwriteNullable<T>(current: Option<T>, patch: Option<T>) returns (r: Option<T>)
    ensures patch.Some? ==> r == patch
    ensures patch.None? ==> r == current
  {
    r := current;
    if patch.Some? {
      r := patch;
    }
  }

  /** `if (!string.IsNullOrWhiteSpace(patch)) field = patch`. */
  method OverwriteText(current: string, patch: Option<string>) returns (r: string)
    ensures !IsNullOrWhiteSpace(patch) ==> r == patch.value
    ensures IsNullOrWhiteSpace(patch) ==> r == current
  {
    r := current;
    if !IsNullOrWhiteSpace(patch) {
      r := patch.value;
    }
  }

  /** The assignments of `UpdateTenantAsync`, one field at a time on the loaded tenant. */
  method ApplyTenantUpdate(loaded: Tenant, u: UpdateTenantRequest, now: DateTime) returns (tenant: Tenant)
    ensures tenant == MergeTenant(loaded, u, now)
  {
    var name := OverwriteText(loaded.Name, u.Name);
    var code := OverwriteNullable(loaded.Code, u.Code);
    var description := OverwriteNullable(loaded.Description, u.Description);
    var email := OverwriteNullable(loaded.ContactEmail, u.ContactEmail);
    var phone := OverwriteNullable(loaded.ContactPhone, u.ContactPhone);
    var plan := Overwrite(loaded.Plan, u.Plan);
    var maxAgents := Overwrite(loaded.MaxAgents, u.MaxAgents);
    var isActive := Overwrite(loaded.IsActive, u.IsActive);
    tenant := loaded.(
      Name := name, Code := code, Description := description, ContactEmail := email, ContactPhone := phone,
      Plan := plan, MaxAgents := maxAgents, IsActive := isActive, UpdatedAt := Some(now));
  }

  /** `UpdateTenantAsync`: the id is checked before the body is read; then 500 when the
      body cannot be read, 400 when it is `null`, 404 when no tenant has the id, and
      otherwise 200 with the merged tenant. */
  method UpdateTenant(
    tenantId: string, body: Outcome<Option<UpdateTenantRequest>>, find: Guid -> Option<Tenant>, now: DateTime)
    returns (reply: Reply<Tenant>)
    ensures ParseGuid(tenantId).None? ==> reply == Plain(BadRequest, InvalidTenantId)
    ensures ParseGuid(tenantId).Some? && body.Threw? ==> reply == Plain(InternalServerError, "Failed to update tenant")
    ensures ParseGuid(tenantId).Some? && body == Returned(None) ==> reply == Plain(BadRequest, "Invalid update data")
    ensures ParseGuid(tenantId).Some? && body.Returned? && body.value.Some? && find(ParseGuid(tenantId).value).None? ==>
      reply == Plain(NotFound, "Tenant not found")
    ensures reply.Json? <==>
      ParseGuid(tenantId).Some? && body.Returned? && body.value.Some? && find(ParseGuid(tenantId).value).Some?
    ensures reply.Json? ==>
      reply == Json(OK, MergeTenant(find(ParseGuid(tenantId).value).value, body.value.value, now))
  {
    var id := ParseGuid(tenantId);
    if id.None? {
      return Plain(BadRequest, InvalidTenantId);
    }
    if body.Threw? {
      return Plain(InternalServerError, "Failed to update tenant");
    }
    var request := body.value;
    if request.None? {
      return Plain(BadRequest, "Invalid update data");
    }
    var loaded := find(id.value);
    if loaded.None? {
      return Plain(NotFound, "Tenant not found");
    }
    var tenant := ApplyTenantUpdate(loaded.value, request.value, now);
    reply := Json(OK, tenant);
  }

  /** `DeleteTenantAsync`: 400 for a bad id, 404 when no tenant has it, 409 when agents
      or child tenants depend on it, and otherwise 204 with the tenant to save marked
      inactive. Nothing is saved on any other path. */
  method DeleteTenant(
    tenantId: string, find: Guid -> Option<Tenant>, hasAgents: Guid -> bool, hasChildTenants: Guid -> bool,
    now: DateTime)
    returns (reply: Reply<Tenant>, saved: Option<Tenant>)
    ensures ParseGuid(tenantId).None? ==> reply == Plain(BadRequest, InvalidTenantId)
    ensures ParseGuid(tenantId).Some? && find(ParseGuid(tenantId).value).None? ==> reply == Plain(NotFound, "Tenant not found")
    ensures ParseGuid(tenantId).Some? && find(ParseGuid(tenantId).value).Some?
      && (hasAgents(ParseGuid(tenantId).value) || hasChildTenants(ParseGuid(tenantId).value))
      ==> reply == Plain(Conflict, "Cannot delete tenant with active agents or child tenants")
    ensures saved.Some? <==> reply == NoBody(NoContent)
    ensures saved.Some? <==>
      && ParseGuid(tenantId).Some? && find(ParseGuid(tenantId).value).Some?
      && !hasAgents(ParseGuid(tenantId).value) && !hasChildTenants(ParseGuid(tenantId).value)
    ensures saved.Some? ==> saved == Some(SoftDelete(find(ParseGuid(tenantId).value).value, now))
  {
    saved := None;
    var id := ParseGuid(tenantId);
    if id.None? {
      return Plain(BadRequest, InvalidTenantId), None;
    }
    var loaded := find(id.value);
    if loaded.None? {
      return Plain(NotFound, "Tenant not found"), None;
    }
    if hasAgents(id.value) || hasChildTenants(id.value) {
      return Plain(Conflict, "Cannot delete tenant with active agents or child tenants"), None;
    }
    var tenant := loaded.value;
    tenant := tenant.(IsActive := false);
    tenant := tenant.(UpdatedAt := Some(now));
    saved := Some(tenant);
    reply := NoBody(NoContent);
  }

  // ---------------------------------------------------------------- agent entities

  /** `new Agent()` with its property initialisers; the two `UtcNow` reads are the
      parameters. */
  function DefaultAgent(id: Guid, firstSeen: DateTime, lastSeen: DateTime): Agent {
    Agent(id, "", None, "", None, None, 0, 0, None, "", None, firstSeen, lastSeen, Online, None, None, None, map[], map[])
  }

  /** What the handlers keep true of an agent: it has a real machine name and it was
      not last seen before it was first seen. */
  predicate ValidAgent(a: Agent) {
    !IsNullOrWhiteSpace(Some(a.MachineName)) && a.FirstSeen <= a.LastSeen
  }

  /** The agent `CreateAgentAsync` builds from an accepted request: "Unknown" for a
      missing operating system, "0.0.0.0" for a missing address, no memory and no cores
      when they are missing, online, and empty tag and property bags. */
  function NewAgent(req: CreateAgentRequest, id: Guid, firstSeen: DateTime, lastSeen: DateTime): (a: Agent)
    requires !IsNullOrWhiteSpace(req.MachineName)
    ensures firstSeen <= lastSeen ==> ValidAgent(a)
    ensures a.AgentId == id && a.MachineName == req.MachineName.value && a.FirstSeen == firstSeen && a.LastSeen == lastSeen
    ensures a.Status == Online && a.TenantId == req.TenantId
    ensures req.OperatingSystem.Some? ==> a.OperatingSystem == req.OperatingSystem.value
    ensures req.OperatingSystem.None? ==> a.OperatingSystem == "Unknown"
    ensures req.IpAddress.Some? ==> a.IpAddress == req.IpAddress.value
    ensures req.IpAddress.None? ==> a.IpAddress == "0.0.0.0"
    ensures Patched(0, req.TotalMemoryMB, a.TotalMemoryMB) && Patched(0, req.ProcessorCores, a.ProcessorCores)
    ensures Patched(map[], req.Tags, a.Tags) && Patched(map[], req.CustomProperties, a.CustomProperties)
    ensures a.Domain == req.Domain && a.OSVersion == req.OSVersion && a.Architecture == req.Architecture
    ensures a.ProcessorName == req.ProcessorName && a.MacAddress == req.MacAddress
    ensures a.GroupName == req.GroupName && a.Version == req.Version
  {
    DefaultAgent(id, firstSeen, lastSeen).(
      MachineName := req.MachineName.value,
      Domain := req.Domain,
      OperatingSystem := req.OperatingSystem.GetOr("Unknown"),
      OSVersion := req.OSVersion,
      Architecture := req.Architecture,
      TotalMemoryMB := req.TotalMemoryMB.GetOr(0),
      ProcessorCores := req.ProcessorCores.GetOr(0),
      ProcessorName := req.ProcessorName,
      IpAddress := req.IpAddress.GetOr("0.0.0.0"),
      MacAddress := req.MacAddress,
      TenantId := req.TenantId,
      GroupName := req.GroupName,
      Version := req.Version,
      Status := Online,
      Tags := req.Tags.GetOr(map[]),
      CustomProperties := req.CustomProperties.GetOr(map[]))
  }

  /** Where the create-time fallbacks and the entity's initialisers differ: a request
      naming only the machine gives a default agent, except that the operating system
      is "Unknown" instead of empty and the address "0.0.0.0" instead of empty. */
  lemma NewAgentDefaults(name: string, id: Guid, firstSeen: DateTime, lastSeen: DateTime)
    requires !IsNullOrWhiteSpace(Some(name))
    ensures NewAgent(
              CreateAgentRequest(Some(name), None, None, None, None, None, None, None, None, None, None, None, None, None, None),
              id, firstSeen, lastSeen)
         == DefaultAgent(id, firstSeen, lastSeen).(MachineName := name, OperatingSystem := "Unknown", IpAddress := "0.0.0.0")
  {
  }

  /** The partial update of `UpdateAgentAsync`: machine name, operating system and
      address only when not blank, every other field only when the request carries it,
      and the agent seen now. */
  function MergeAgent(a: Agent, u: UpdateAgentRequest, now: DateTime): (r: Agent)
    ensures r.LastSeen == now
    ensures PatchedText(a.MachineName, u.MachineName, r.MachineName)
    ensures PatchedText(a.OperatingSystem, u.OperatingSystem, r.OperatingSystem)
    ensures PatchedText(a.IpAddress, u.IpAddress, r.IpAddress)
    ensures PatchedNullable(a.Domain, u.Domain, r.Domain) && PatchedNullable(a.OSVersion, u.OSVersion, r.OSVersion)
    ensures PatchedNullable(a.Architecture, u.Architecture, r.Architecture)
    ensures PatchedNullable(a.ProcessorName, u.ProcessorName, r.ProcessorName)
    ensures PatchedNullable(a.MacAddress, u.MacAddress, r.MacAddress) && PatchedNullable(a.TenantId, u.TenantId, r.TenantId)
    ensures PatchedNullable(a.GroupName, u.GroupName, r.GroupName) && PatchedNullable(a.Version, u.Version, r.Version)
    ensures Patched(a.TotalMemoryMB, u.TotalMemoryMB, r.TotalMemoryMB)
    ensures Patched(a.ProcessorCores, u.ProcessorCores, r.ProcessorCores) && Patched(a.Status, u.Status, r.Status)
    ensures Patched(a.Tags, u.Tags, r.Tags) && Patched(a.CustomProperties, u.CustomProperties, r.CustomProperties)
    ensures r.AgentId == a.AgentId && r.FirstSeen == a.FirstSeen
    ensures ValidAgent(a) && a.LastSeen <= now ==> ValidAgent(r)
  {
    Agent(
      a.AgentId,
      PatchText(a.MachineName, u.MachineName),
      PatchNullable(a.Domain, u.Domain),
      PatchText(a.OperatingSystem, u.OperatingSystem),
      PatchNullable(a.OSVersion, u.OSVersion),
      PatchNullable(a.Architecture, u.Architecture),
      PatchValue(a.TotalMemoryMB, u.TotalMemoryMB),
      PatchValue(a.ProcessorCores, u.ProcessorCores),
      PatchNullable(a.ProcessorName, u.ProcessorName),
      PatchText(a.IpAddress, u.IpAddress),
      PatchNullable(a.MacAddress, u.MacAddress),
      a.FirstSeen,
      now,
      PatchValue(a.Status, u.Status),
      PatchNullable(a.Version, u.Version),
      PatchNullable(a.TenantId, u.TenantId),
      PatchNullable(a.GroupName, u.GroupName),
      PatchValue(a.Tags, u.Tags),
      PatchValue(a.CustomProperties, u.CustomProperties))
  }

  const NoAgentChange: UpdateAgentRequest :=
    UpdateAgentRequest(None, None, None, None, None, None, None, None, None, None, None, None, None, None, None, None)

  /** An empty update only refreshes the last-seen time, and repeating an update changes
      nothing more. */
  lemma MergeAgentLaws(a: Agent, u: UpdateAgentRequest, now: DateTime, later: DateTime)
    ensures MergeAgent(a, NoAgentChange, now) == a.(LastSeen := now)
    ensures MergeAgent(MergeAgent(a, u, now), u, later) == MergeAgent(a, u, later)
  {
  }

  /** The heartbeat of `UpdateAgentStatusAsync`: the reported status, seen now. */
  function Heartbeat(a: Agent, status: AgentStatus, now: DateTime): (r: Agent)
    ensures r.Status == status && r.LastSeen == now
    ensures r.(Status := a.Status, LastSeen := a.LastSeen) == a
    ensures ValidAgent(a) && a.LastSeen <= now ==> ValidAgent(r)
  {
    a.(Status := status, LastSeen := now)
  }

  /** After a heartbeat the dashboard shows the agent online exactly when the reported
      status is `Online`, under the reported status name. */
  lemma HeartbeatSummary(a: Agent, status: AgentStatus, now: DateTime)
    ensures Dashboard.AgentSummaryOf(Heartbeat(a, status, now)).IsOnline <==> status == Online
    ensures Dashboard.AgentSummaryOf(Heartbeat(a, status, now)).Status == status.Name()
    ensures Dashboard.AgentSummaryOf(Heartbeat(a, status, now)).LastSeen == now
  {
  }

  // ---------------------------------------------------------------- agent handlers

  /** `GetAgentsAsync`: always 200 with the listing. */
  function GetAgents(url: string): (reply: Reply<Listing<Agent>>)
    ensures reply.Json? && reply.status == OK && reply.value == EmptyListing(url)
  {
    Json(OK, EmptyListing(url))
  }

  /** `GetTenantAgentsAsync`: 400 for an id that is not a GUID, otherwise 200 with the
      listing. */
  function GetTenantAgents(tenantId: string, url: string): (reply: Reply<Listing<Agent>>)
    ensures ParseGuid(tenantId).None? ==> reply == Plain(BadRequest, InvalidTenantId)
    ensures ParseGuid(tenantId).Some? ==> reply == Json(OK, EmptyListing(url))
  {
    if ParseGuid(tenantId).None? then Plain(BadRequest, InvalidTenantId) else Json(OK, EmptyListing(url))
  }

  /** `GetAgentAsync`: 400 for a bad id, 404 when no agent has it, otherwise 200 with
      the agent. */
  function GetAgent(agentId: string, find: Guid -> Option<Agent>): (reply: Reply<Agent>)
    ensures ParseGuid(agentId).None? ==> reply == Plain(BadRequest, InvalidAgentId)
    ensures ParseGuid(agentId).Some? && find(ParseGuid(agentId).value).None? ==> reply == Plain(NotFound, "Agent not found")
    ensures reply.Json? <==> ParseGuid(agentId).Some? && find(ParseGuid(agentId).value).Some?
    ensures reply.Json? ==> reply == Json(OK, find(ParseGuid(agentId).value).value)
  {
    match ParseGuid(agentId)
    case None => Plain(BadRequest, InvalidAgentId)
    case Some(id) =>
      match find(id)
      case None => Plain(NotFound, "Agent not found")
      case Some(a) => Json(OK, a)
  }

  /** An agent is found under the "D" string of its own id, which is also the id the
      dashboard's agent summary shows. */
  lemma GetAgentBySummaryId(a: Agent, find: Guid -> Option<Agent>)
    requires find(a.AgentId) == Some(a)
    ensures GetAgent(Dashboard.AgentSummaryOf(a).AgentId, find) == Json(OK, a)
  {
    ParseFormatD(a.AgentId);
  }

  /** `CreateAgentAsync`: 500 when the body cannot be read, 400 when it is `null` or
      names no machine, otherwise 201 with the new agent. */
  function CreateAgent(
    body: Outcome<Option<CreateAgentRequest>>, newId: Guid, firstSeen: DateTime, lastSeen: DateTime)
    : (reply: Reply<Agent>)
    ensures body.Threw? ==> reply == Plain(InternalServerError, "Failed to create agent")
    ensures body.Returned? && (body.value.None? || IsNullOrWhiteSpace(body.value.value.MachineName)) ==>
      reply == Plain(BadRequest, "Invalid agent data. MachineName is required.")
    ensures reply.Json? <==> body.Returned? && body.value.Some? && !IsNullOrWhiteSpace(body.value.value.MachineName)
    ensures reply.Json? ==> reply == Json(Created, NewAgent(body.value.value, newId, firstSeen, lastSeen))
  {
    match body
    case Threw(_) => Plain(InternalServerError, "Failed to create agent")
    case Returned(request) =>
      if request.None? || IsNullOrWhiteSpace(request.value.MachineName) then
        Plain(BadRequest, "Invalid agent data. MachineName is required.")
      else
        Json(Created, NewAgent(request.value, newId, firstSeen, lastSeen))
  }

  /** The assignments of `UpdateAgentAsync`, one field at a time on the loaded agent. */
  method ApplyAgentUpdate(loaded: Agent, u: UpdateAgentRequest, now: DateTime) returns (agent: Agent)
    ensures agent == MergeAgent(loaded, u, now)
  {
    var machineName := OverwriteText(loaded.MachineName, u.MachineName);
    var domain := OverwriteNullable(loaded.Domain, u.Domain);
    var os := OverwriteText(loaded.OperatingSystem, u.OperatingSystem);
    var osVersion := OverwriteNullable(loaded.OSVersion, u.OSVersion);
    var architecture := OverwriteNullable(loaded.Architecture, u.Architecture);
    var memory := Overwrite(loaded.TotalMemoryMB, u.TotalMemoryMB);
    var cores := Overwrite(loaded.ProcessorCores, u.ProcessorCores);
    var processor := OverwriteNullable(loaded.ProcessorName, u.ProcessorName);
    var ip := OverwriteText(loaded.IpAddress, u.IpAddress);
    var mac := OverwriteNullable(loaded.MacAddress, u.MacAddress);
    var tenantId := OverwriteNullable(loaded.TenantId, u.TenantId);
    var group := OverwriteNullable(loaded.GroupName, u.GroupName);
    var version := OverwriteNullable(loaded.Version, u.Version);
    var status := Overwrite(loaded.Status, u.Status);
    var tags := Overwrite(loaded.Tags, u.Tags);
    var properties := Overwrite(loaded.CustomProperties, u.CustomProperties);
    agent := loaded.(
      MachineName := machineName, Domain := domain, OperatingSystem := os, OSVersion := osVersion,
      Architecture := architecture, TotalMemoryMB := memory, ProcessorCores := cores, ProcessorName := processor,
      IpAddress := ip, MacAddress := mac, TenantId := tenantId, GroupName := group,
      Version := version, Status := status, Tags := tags, CustomProperties := properties, LastSeen := now);
  }

  /** `UpdateAgentAsync`: the id is checked before the body is read; then 500 when the
      body cannot be read, 400 when it is `null`, 404 when no agent has the id, and
      otherwise 200 with the merged agent. */
  method UpdateAgent(
    agentId: string, body: Outcome<Option<UpdateAgentRequest>>, find: Guid -> Option<Agent>, now: DateTime)
    returns (reply: Reply<Agent>)
    ensures ParseGuid(agentId).None? ==> reply == Plain(BadRequest, InvalidAgentId)
    ensures ParseGuid(agentId).Some? && body.Threw? ==> reply == Plain(InternalServerError, "Failed to update agent")
    ensures ParseGuid(agentId).Some? && body == Returned(None) ==> reply == Plain(BadRequest, "Invalid update data")
    ensures ParseGuid(agentId).Some? && body.Returned? && body.value.Some? && find(ParseGuid(agentId).value).None? ==>
      reply == Plain(NotFound, "Agent not found")
    ensures reply.Json? <==>
      ParseGuid(agentId).Some? && body.Returned? && body.value.Some? && find(ParseGuid(agentId).value).Some?
    ensures reply.Json? ==>
      reply == Json(OK, MergeAgent(find(ParseGuid(agentId).value).value, body.value.value, now))
  {
    var id := ParseGuid(agentId);
    if id.None? {
      return Plain(BadRequest, InvalidAgentId);
    }
    if body.Threw? {
      return Plain(InternalServerError, "Failed to update agent");
    }
    var request := body.value;
    if request.None? {
      return Plain(BadRequest, "Invalid update data");
    }
    var loaded := find(id.value);
    if loaded.None? {
      return Plain(NotFound, "Agent not found");
    }
    var agent := ApplyAgentUpdate(loaded.value, request.value, now);
    reply := Json(OK, agent);
  }

  /** `DeleteAgentAsync`: 400 for a bad id, 404 when no agent has it, otherwise 204;
      the removal itself is not written yet, so nothing changes. */
  function DeleteAgent(agentId: string, find: Guid -> Option<Agent>): (reply: Reply<Agent>)
    ensures ParseGuid(agentId).None? ==> reply == Plain(BadRequest, InvalidAgentId)
    ensures ParseGuid(agentId).Some? && find(ParseGuid(agentId).value).None? ==> reply == Plain(NotFound, "Agent not found")
    ensures reply == NoBody(NoContent) <==> ParseGuid(agentId).Some? && find(ParseGuid(agentId).value).Some?
  {
    match ParseGuid(agentId)
    case None => Plain(BadRequest, InvalidAgentId)
    case Some(id) => if find(id).None? then Plain(NotFound, "Agent not found") else NoBody(NoContent)
  }

  /** `UpdateAgentStatusAsync`: the id is checked before the body is read; then 500
      when the body cannot be read, 400 when it is `null`, 404 when no agent has the id,
      and otherwise 200 with the reported status and the new last-seen time, and the
      agent to save after its heartbeat. Nothing is saved on any other path. */
  method UpdateAgentStatus(
    agentId: string, body: Outcome<Option<UpdateAgentStatusRequest>>, find: Guid -> Option<Agent>, now: DateTime)
    returns (reply: Reply<StatusReply>, saved: Option<Agent>)
    ensures ParseGuid(agentId).None? ==> reply == Plain(BadRequest, InvalidAgentId)
    ensures ParseGuid(agentId).Some? && body.Threw? ==> reply == Plain(InternalServerError, "Failed to update agent status")
    ensures ParseGuid(agentId).Some? && body == Returned(None) ==> reply == Plain(BadRequest, "Invalid status data")
    ensures ParseGuid(agentId).Some? && body.Returned? && body.value.Some? && find(ParseGuid(agentId).value).None? ==>
      reply == Plain(NotFound, "Agent not found")
    ensures saved.Some? <==> reply.Json?
    ensures reply.Json? <==>
      ParseGuid(agentId).Some? && body.Returned? && body.value.Some? && find(ParseGuid(agentId).value).Some?
    ensures reply.Json? ==>
      && reply == Json(OK, StatusReply(body.value.value.Status, now))
      && saved == Some(Heartbeat(find(ParseGuid(agentId).value).value, body.value.value.Status, now))
  {
    var id := ParseGuid(agentId);
    if id.None? {
      return Plain(BadRequest, InvalidAgentId), None;
    }
    if body.Threw? {
      return Plain(InternalServerError, "Failed to update agent status"), None;
    }
    var request := body.value;
    if request.None? {
      return Plain(BadRequest, "Invalid status data"), None;
    }
    var loaded := find(id.value);
    if loaded.None? {
      return Plain(NotFound, "Agent not found"), None;
    }
    var agent := loaded.value;
    agent := agent.(Status := request.value.Status);
    agent := agent.(LastSeen := now);
    saved := Some(agent);
    reply := Json(OK, StatusReply(agent.Status, agent.LastSeen));
  }
}
