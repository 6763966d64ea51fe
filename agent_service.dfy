/** The agent's background service: the hub session loop, the connection event handlers,
    the heartbeat and telemetry timers, the reconnect counter and the command handler.
    The SignalR connection, the timers' firing, the host probes and the clock are inputs:
    a connection state is passed in, a tick is a method call, a delay is returned. */
module AgentRuntime {
  import opened Common
  import opened Text
  import opened Guids
  import opened Models
  import TelemetryCollector

  /** `AgentConfiguration`, plus the `HubUrl` the service reads from it. */
  datatype AgentConfiguration = AgentConfiguration(
    HubUrl: Option<string>,
    TenantCode: Option<string>,
    GroupName: Option<string>,
    HeartbeatInterval: int,
    TelemetryInterval: int,
    ReconnectDelay: int,
    MaxReconnectAttempts: int)

  /** The property initialisers of `AgentConfiguration`. */
  const Defaults: AgentConfiguration := AgentConfiguration(None, None, None, 30, 60, 5, 10)

  /** `string.IsNullOrEmpty(HubUrl)` fails. */
  predicate HubUrlConfigured(config: AgentConfiguration) {
    config.HubUrl.Some? && config.HubUrl.value != ""
  }

  /** SignalR's `HubConnectionState`. */
  datatype HubConnectionState = Disconnected | Connected | Connecting | Reconnecting

  datatype TimerKind = HeartbeatTimer | TelemetryTimer

  /** A `System.Threading.Timer`: what it calls back, its first due time and its period in
      seconds, and whether it has been disposed. */
  datatype Timer = Timer(kind: TimerKind, dueSeconds: int, periodSeconds: int, disposed: bool)

  /** A hub method the agent invoked through `InvokeAsync`. */
  datatype Invocation =
    | RegisterAgent(agentId: string, registration: AgentRegistrationDto)
    | Heartbeat(agentId: string)
    | SendTelemetry(agentId: string, telemetry: TelemetryDto)
    | ReportCommandResult(commandId: string, result: CommandResultDto)

  /** The agent id: the machine name, an underscore and the first eight digits of a fresh
      GUID in "N" format. */
  function AgentIdFor(machineName: string, suffix: Guid): (id: string)
    ensures |id| == |machineName| + 9
    ensures id[..|machineName|] == machineName && id[|machineName|] == '_'
    ensures forall i :: 0 <= i < 8 ==>
      IsLowerHexChar(id[|machineName| + 1 + i]) && HexValue(id[|machineName| + 1 + i]) == suffix[i]
  {
    machineName + "_" + FormatN(suffix)[..8]
  }

  /** Two GUIDs that differ in their first eight digits give one machine two different ids. */
  lemma AgentIdDistinguishesSuffixes(machineName: string, a: Guid, b: Guid)
    requires a[..8] != b[..8]
    ensures AgentIdFor(machineName, a) != AgentIdFor(machineName, b)
  {
    var i :| 0 <= i < 8 && a[i] != b[i];
    var k := |machineName| + 1 + i;
    assert HexValue(AgentIdFor(machineName, a)[k]) != HexValue(AgentIdFor(machineName, b)[k]);
  }

  // ---------------------------------------------------------------- reconnect backoff

  /** The delay `HandleReconnection` waits once the counter reads `attempts`: linear in the
      attempt number up to the cap, nothing beyond it. */
  function BackoffDelay(config: AgentConfiguration, attempts: int): int {
    if attempts > config.MaxReconnectAttempts then 0 else config.ReconnectDelay * attempts
  }

  lemma {:induction false} MulStrictlyIncreasing(c: int, a: int, b: int)
    requires c > 0 && a < b
    ensures c * a < c * b
    decreases b - a
  {
    if b - a > 1 {
      MulStrictlyIncreasing(c, a, b - 1);
    }
    assert c * b == c * (b - 1) + c;
  }

  /** Below the cap, every further attempt waits strictly longer. */
  lemma BackoffStrictlyIncreasing(config: AgentConfiguration, a: int, b: int)
    requires config.ReconnectDelay > 0
    requires 1 <= a < b <= config.MaxReconnectAttempts
    ensures BackoffDelay(config, a) < BackoffDelay(config, b)
  {
    MulStrictlyIncreasing(config.ReconnectDelay, a, b);
  }

  /** No wait is longer than `ReconnectDelay * MaxReconnectAttempts`, none is negative. */
  lemma BackoffBounded(config: AgentConfiguration, attempts: int)
    requires config.ReconnectDelay >= 0 && config.MaxReconnectAttempts >= 0 && attempts >= 1
    ensures 0 <= BackoffDelay(config, attempts) <= config.ReconnectDelay * config.MaxReconnectAttempts
  {
    if attempts <= config.MaxReconnectAttempts {
      assert config.ReconnectDelay * config.MaxReconnectAttempts
        == config.ReconnectDelay * attempts + config.ReconnectDelay * (config.MaxReconnectAttempts - attempts);
      assert config.ReconnectDelay * (config.MaxReconnectAttempts - attempts) >= 0;
    } else {
      assert config.ReconnectDelay * config.MaxReconnectAttempts >= 0;
    }
  }

  /** With the default configuration the waits are 5, 10, ..., 50 seconds, then none. */
  lemma DefaultBackoff(attempts: int)
    requires attempts >= 1
    ensures attempts <= 10 ==> BackoffDelay(Defaults, attempts) == 5 * attempts
    ensures attempts > 10 ==> BackoffDelay(Defaults, attempts) == 0
  {
  }

  /** A configuration whose waits and timer periods .NET accepts: `Task.Delay` and the
      `Timer` constructor reject a negative span. */
  predicate ValidConfiguration(config: AgentConfiguration) {
    config.ReconnectDelay >= 0 && config.HeartbeatInterval >= 0 && config.TelemetryInterval >= 0
  }

  /** A negative `ReconnectDelay` gives a negative wait for every attempt below the cap:
      the span `Task.Delay` rejects. */
  lemma {:induction false} BackoffNegative(config: AgentConfiguration, attempts: int)
    requires config.ReconnectDelay < 0 && 1 <= attempts <= config.MaxReconnectAttempts
    ensures BackoffDelay(config, attempts) < 0
  {
    if attempts > 1 {
      BackoffNegative(config, attempts - 1);
      assert config.ReconnectDelay * attempts == config.ReconnectDelay * (attempts - 1) + config.ReconnectDelay;
    }
  }

  // ---------------------------------------------------------------- registration

  /** The tag keys the registration payload always carries. */
  const TagKeys: set<string> :=
    {"Domain", "OSVersion", "TotalMemoryMB", "ProcessorCores", "ProcessorName", "IpAddress",
     "MacAddress", "GroupName"}

  /** The tags `RegisterAgent` attaches: exactly the eight `TagKeys`, missing strings
      replaced by "Unknown" (or "default" for the group), the numbers written in decimal. */
  function RegistrationTags(config: AgentConfiguration, info: SystemInfoDto): (tags: map<string, string>)
    ensures tags.Keys == TagKeys
    ensures tags["TotalMemoryMB"] == IntToDecimal(info.TotalMemoryMB)
    ensures tags["ProcessorCores"] == IntToDecimal(info.ProcessorCores)
  {
    map[
      "Domain" := info.Domain.GetOr("Unknown"),
      "OSVersion" := info.OSVersion.GetOr("Unknown"),
      "TotalMemoryMB" := IntToDecimal(info.TotalMemoryMB),
      "ProcessorCores" := IntToDecimal(info.ProcessorCores),
      "ProcessorName" := info.ProcessorName.GetOr("Unknown"),
      "IpAddress" := info.IpAddress.GetOr("Unknown"),
      "MacAddress" := info.MacAddress.GetOr("Unknown"),
      "GroupName" := config.GroupName.GetOr("default")]
  }

  /** The string tags: a missing machine string becomes "Unknown", a missing group
      "default". */
  lemma RegistrationTagDefaults(config: AgentConfiguration, info: SystemInfoDto)
    ensures var tags := RegistrationTags(config, info);
      && tags["Domain"] == (if info.Domain.Some? then info.Domain.value else "Unknown")
      && tags["OSVersion"] == (if info.OSVersion.Some? then info.OSVersion.value else "Unknown")
      && tags["ProcessorName"] == (if info.ProcessorName.Some? then info.ProcessorName.value else "Unknown")
      && tags["IpAddress"] == (if info.IpAddress.Some? then info.IpAddress.value else "Unknown")
      && tags["MacAddress"] == (if info.MacAddress.Some? then info.MacAddress.value else "Unknown")
      && tags["GroupName"] == (if config.GroupName.Some? then config.GroupName.value else "default")
  {
  }

  /** The `AgentRegistrationDto` `RegisterAgent` sends: the agent's id, online, no tenant
      id, the tenant code and version defaulted to "default" and "1.0.0", the machine
      strings copied and the `RegistrationTags`. */
  function RegistrationPayload(agentId: string, config: AgentConfiguration, info: SystemInfoDto, now: DateTime)
    : (p: AgentRegistrationDto)
    ensures p.AgentId == agentId && p.IsOnline && p.TenantId.None? && p.LastSeen == now
    ensures p.TenantCode == (if config.TenantCode.Some? then config.TenantCode.value else "default")
    ensures p.Version == (if info.Version.Some? then info.Version.value else "1.0.0")
    ensures p.MachineName == info.MachineName && p.OperatingSystem == info.OperatingSystem
    ensures p.Architecture == info.Architecture
    ensures p.Tags == RegistrationTags(config, info)
  {
    AgentRegistrationDto(
      agentId,
      config.TenantCode.GetOr("default"),
      info.MachineName,
      info.OperatingSystem,
      info.Architecture,
      info.Version.GetOr("1.0.0"),
      now,
      true,
      None,
      RegistrationTags(config, info))
  }


  /** The numeric tags read back as the numbers they were written from. */
  lemma RegistrationNumbersRoundTrip(agentId: string, config: AgentConfiguration, info: SystemInfoDto, now: DateTime)
    requires Int32Min <= info.ProcessorCores <= Int32Max
    requires Int32Min <= info.TotalMemoryMB <= Int32Max
    ensures var p := RegistrationPayload(agentId, config, info, now);
      && TryParseInt32(Some(p.Tags["ProcessorCores"])) == Some(info.ProcessorCores)
      && TryParseInt32(Some(p.Tags["TotalMemoryMB"])) == Some(info.TotalMemoryMB)
  {
    TryParseInt32RoundTrip(info.ProcessorCores);
    TryParseInt32RoundTrip(info.TotalMemoryMB);
  }

  // ---------------------------------------------------------------- command dispatch

  const Completed: string := "Completed"
  const Failed: string := "Failed"

  /** The lower-cased command types the handler knows. */
  predicate IsKnownCommand(lowered: string) {
    lowered == "ping" || lowered == "systeminfo"
  }

  /** The result `ExecuteCommandAsync` reports for `command`. `systemInfo` is the JSON of
      the system information, or the message of the exception thrown while getting or
      serialising it; the two clock reads are inputs. */
  function CommandResult(command: CommandDto, systemInfo: Outcome<string>, executedAt: DateTime, completedAt: DateTime)
    : (r: CommandResultDto)
    ensures r.CommandId == command.CommandId && r.ExitCode.None?
    ensures r.ExecutedAt == executedAt && r.CompletedAt == completedAt
    ensures r.Status == Completed || r.Status == Failed
    ensures r.Status == Completed <==>
      command.CommandType.Some? &&
      (ToLower(command.CommandType.value) == "ping" ||
       (ToLower(command.CommandType.value) == "systeminfo" && systemInfo.Returned?))
    ensures r.Status == Completed ==> r.Result.Some? && r.ErrorMessage.None?
    ensures r.Status == Failed ==> r.Result.None? && r.ErrorMessage.Some?
    ensures command.CommandType.Some? && ToLower(command.CommandType.value) == "ping" ==>
      r.Result == Some("pong")
    ensures command.CommandType.Some? && ToLower(command.CommandType.value) == "systeminfo" ==>
      if systemInfo.Returned? then r.Result == Some(systemInfo.value)
      else r.ErrorMessage == Some(systemInfo.message)
    ensures command.CommandType.Some? && !IsKnownCommand(ToLower(command.CommandType.value)) ==>
      r.ErrorMessage == Some("Unknown command type: " + command.CommandType.value)
    ensures command.CommandType.None? ==> r.ErrorMessage == Some(NullReferenceMessage)
  {
    var base := CommandResultDto(command.CommandId, "", None, None, None, executedAt, completedAt);
    match command.CommandType
    case None => base.(ErrorMessage := Some(NullReferenceMessage), Status := Failed)
    case Some(t) =>
      var lowered := ToLower(t);
      if lowered == "ping" then base.(Result := Some("pong"), Status := Completed)
      else if lowered == "systeminfo" then
        match systemInfo
        case Returned(json) => base.(Result := Some(json), Status := Completed)
        case Threw(message) => base.(ErrorMessage := Some(message), Status := Failed)
      else base.(ErrorMessage := Some("Unknown command type: " + t), Status := Failed)
  }

  /** Dispatch ignores case: two known command types that lower-case alike get the same
      status, result and error. */
  lemma DispatchIgnoresCase(a: CommandDto, b: CommandDto, systemInfo: Outcome<string>, executedAt: DateTime, completedAt: DateTime)
    requires a.CommandType.Some? && b.CommandType.Some?
    requires ToLower(a.CommandType.value) == ToLower(b.CommandType.value)
    requires IsKnownCommand(ToLower(a.CommandType.value))
    ensures var ra := CommandResult(a, systemInfo, executedAt, completedAt);
      var rb := CommandResult(b, systemInfo, executedAt, completedAt);
      ra.Status == rb.Status && ra.Result == rb.Result && ra.ErrorMessage == rb.ErrorMessage
  {
  }

  // ---------------------------------------------------------------- timers

  predicate Live(t: Timer, kind: TimerKind) {
    !t.disposed && t.kind == kind
  }

  /** How many undisposed timers of `kind` exist. */
  function LiveCount(timers: seq<Timer>, kind: TimerKind): nat {
    if timers == [] then 0
    else LiveCount(timers[..|timers| - 1], kind) + (if Live(timers[|timers| - 1], kind) then 1 else 0)
  }

  /** The service's timer fields point at timers of the right kind and schedule, and every
      timer that is not disposed is one the fields point at. */
  predicate TimersConsistent(
    timers: seq<Timer>, heartbeat: Option<nat>, telemetry: Option<nat>, config: AgentConfiguration)
  {
    && (heartbeat.Some? <==> telemetry.Some?)
    && (heartbeat.Some? ==>
          heartbeat.value < |timers| &&
          timers[heartbeat.value].kind == HeartbeatTimer &&
          timers[heartbeat.value].dueSeconds == 0 &&
          timers[heartbeat.value].periodSeconds == config.HeartbeatInterval)
    && (telemetry.Some? ==>
          telemetry.value < |timers| &&
          timers[telemetry.value].kind == TelemetryTimer &&
          timers[telemetry.value].dueSeconds == 10 &&
          timers[telemetry.value].periodSeconds == config.TelemetryInterval)
    && (forall i :: 0 <= i < |timers| && !timers[i].disposed ==> heartbeat == Some(i) || telemetry == Some(i))
  }

  lemma {:induction false} LiveCountAtMostOne(timers: seq<Timer>, kind: TimerKind, j: int)
    requires forall i :: 0 <= i < |timers| && Live(timers[i], kind) ==> i == j
    ensures LiveCount(timers, kind) <= (if 0 <= j < |timers| then 1 else 0)
  {
    if timers != [] {
      var prefix := timers[..|timers| - 1];
      assert forall i :: 0 <= i < |prefix| ==> prefix[i] == timers[i];
      LiveCountAtMostOne(prefix, kind, j);
    }
  }

  /** As long as the fields are consistent, at most one heartbeat timer and at most one
      telemetry timer are live. */
  lemma AtMostOneLiveTimer(
    timers: seq<Timer>, heartbeat: Option<nat>, telemetry: Option<nat>, config: AgentConfiguration, kind: TimerKind)
    requires TimersConsistent(timers, heartbeat, telemetry, config)
    ensures LiveCount(timers, kind) <= 1
  {
    var field := if kind == HeartbeatTimer then heartbeat else telemetry;
    var j := if field.Some? then field.value else -1;
    LiveCountAtMostOne(timers, kind, j);
  }

  // ---------------------------------------------------------------- the session loop

  /** What one pass of the session loop meets: how `StartAsync` ends (`None` when it
      connects, otherwise the exception's message), the system information registration
      reads, the clock at registration, and whether the service is asked to stop while
      this session is up. */
  datatype Session = Session(
    startFailure: Option<string>,
    systemInfo: Outcome<SystemInfoDto>,
    registeredAt: DateTime,
    stopRequested: bool)

  /** The session reaches the hub. */
  predicate Connects(config: AgentConfiguration, s: Session) {
    HubUrlConfigured(config) && s.startFailure.None?
  }

  /** How many of `sessions` the loop goes through: up to and including the first one
      during which a stop is requested. */
  function SessionsUsed(sessions: seq<Session>): (n: nat)
    ensures n <= |sessions|
    ensures sessions != [] ==> n > 0
  {
    if sessions == [] then 0
    else if sessions[0].stopRequested then 1
    else 1 + SessionsUsed(sessions[1..])
  }

  /** The loop stops right after the first session that requested a stop, and only there. */
  lemma {:induction false} SessionsUsedStops(sessions: seq<Session>)
    ensures var n := SessionsUsed(sessions);
      && (forall j :: 0 <= j < n - 1 ==> !sessions[j].stopRequested)
      && (n < |sessions| ==> sessions[n - 1].stopRequested)
  {
    if sessions != [] && !sessions[0].stopRequested {
      var rest := sessions[1..];
      SessionsUsedStops(rest);
      var m := SessionsUsed(rest);
      forall j | 0 <= j < m ensures !sessions[j].stopRequested {
        if j > 0 { assert sessions[j] == rest[j - 1]; }
      }
      if m < |rest| { assert sessions[m] == rest[m - 1]; }
    }
  }

  /** The loop uses exactly `k` sessions when none of the first `k - 1` asked to stop and
      either the `k`-th did or there are no more. */
  lemma {:induction false} SessionsUsedExactly(sessions: seq<Session>, k: nat)
    requires k <= |sessions|
    requires forall j :: 0 <= j < k - 1 ==> !sessions[j].stopRequested
    requires k == |sessions| || (k > 0 && sessions[k - 1].stopRequested)
    ensures SessionsUsed(sessions) == k
  {
    if sessions != [] && !sessions[0].stopRequested {
      var rest := sessions[1..];
      forall j | 0 <= j < k - 2 ensures !rest[j].stopRequested {
        assert rest[j] == sessions[j + 1];
      }
      if k < |sessions| {
        assert rest[k - 2] == sessions[k - 1];
      }
      SessionsUsedExactly(rest, k - 1);
    }
  }

  lemma SessionsUsedStep(sessions: seq<Session>, p: nat)
    requires p < |sessions|
    ensures SessionsUsed(sessions[p..])
         == if sessions[p].stopRequested then 1 else 1 + SessionsUsed(sessions[p + 1..])
  {
    assert sessions[p..][1..] == sessions[p + 1..];
  }

  /** How many of `sessions` were connected and then lost: each one calls `HandleReconnection`. */
  function Drops(config: AgentConfiguration, sessions: seq<Session>): nat {
    if sessions == [] then 0
    else
      var last := sessions[|sessions| - 1];
      Drops(config, sessions[..|sessions| - 1]) + (if Connects(config, last) && !last.stopRequested then 1 else 0)
  }

  /** How many of `sessions` connected. */
  function Connections(config: AgentConfiguration, sessions: seq<Session>): nat {
    if sessions == [] then 0
    else
      Connections(config, sessions[..|sessions| - 1]) + (if Connects(config, sessions[|sessions| - 1]) then 1 else 0)
  }

  /** The wait that follows one session, once the counter reads `attempts`. */
  function SessionDelay(config: AgentConfiguration, s: Session, attempts: int): Option<int> {
    if s.stopRequested then None
    else if Connects(config, s) then Some(BackoffDelay(config, attempts))
    else Some(config.ReconnectDelay)
  }

  /** The waits the loop takes after `sessions`, counting from `attempts0` attempts: the
      fixed `ReconnectDelay` after a failed connect, the backoff after a lost connection. */
  function Delays(config: AgentConfiguration, attempts0: int, sessions: seq<Session>): seq<int> {
    if sessions == [] then []
    else
      var last := sessions[|sessions| - 1];
      var d := SessionDelay(config, last, attempts0 + Drops(config, sessions));
      Delays(config, attempts0, sessions[..|sessions| - 1]) + (if d.Some? then [d.value] else [])
  }

  // ---------------------------------------------------------------- the reconnect cap

  /** As written, passing the cap does not end the service: `HandleReconnection` logs that
      it is shutting down and returns, and the loop connects again at once. A run of lost
      connections uses every session, and from the cap on no reconnect waits. */
  lemma DropsPastCapNeverShutDown(config: AgentConfiguration, sessions: seq<Session>)
    requires forall i :: 0 <= i < |sessions| ==> Connects(config, sessions[i]) && !sessions[i].stopRequested
    ensures SessionsUsed(sessions) == |sessions|
    ensures |Delays(config, 0, sessions)| == |sessions|
    ensures forall i :: 0 <= i < |sessions| && config.MaxReconnectAttempts <= i ==> Delays(config, 0, sessions)[i] == 0
  {
    DelaysOfRepeatedDrops(config, sessions);
    SessionsUsedExactly(sessions, |sessions|);
    var delays := Delays(config, 0, sessions);
    forall i | 0 <= i < |sessions| && config.MaxReconnectAttempts <= i ensures delays[i] == 0 {
      assert delays[i] == BackoffDelay(config, i + 1);
    }
  }

  /** How many of `sessions` the loop would use, counting from `attempts`, if a lost
      connection that takes the counter past the cap shut the service down, as the log
      message says it does. */
  function IntendedSessionsUsed(config: AgentConfiguration, attempts: int, sessions: seq<Session>): (n: nat)
    ensures n <= |sessions|
    ensures sessions != [] ==> n > 0
    decreases |sessions|
  {
    if sessions == [] then 0
    else if sessions[0].stopRequested then 1
    else
      var attempts' := if Connects(config, sessions[0]) then attempts + 1 else attempts;
      if attempts' > config.MaxReconnectAttempts then 1
      else 1 + IntendedSessionsUsed(config, attempts', sessions[1..])
  }

  /** With the shutdown in place, a run of lost connections ends at the first one past the
      cap: from a counter of `attempts` that is `MaxReconnectAttempts - attempts + 1`
      sessions, or one when the counter is already at the cap. */
  lemma {:induction false} IntendedShutsDown(config: AgentConfiguration, attempts: int, sessions: seq<Session>)
    requires forall i :: 0 <= i < |sessions| ==> Connects(config, sessions[i]) && !sessions[i].stopRequested
    ensures var cap := if attempts < config.MaxReconnectAttempts then config.MaxReconnectAttempts - attempts + 1 else 1;
      IntendedSessionsUsed(config, attempts, sessions) == if |sessions| < cap then |sessions| else cap
    decreases |sessions|
  {
    if sessions != [] && attempts + 1 <= config.MaxReconnectAttempts {
      var rest := sessions[1..];
      forall i | 0 <= i < |rest| ensures Connects(config, rest[i]) && !rest[i].stopRequested {
        assert rest[i] == sessions[i + 1];
      }
      IntendedShutsDown(config, attempts + 1, rest);
    }
  }

  /** Every timer of `timers`, disposed. */
  function DisposeAll(timers: seq<Timer>): (r: seq<Timer>)
    ensures |r| == |timers|
    ensures forall i :: 0 <= i < |r| ==> r[i] == timers[i].(disposed := true)
  {
    seq(|timers|, i requires 0 <= i < |timers| => timers[i].(disposed := true))
  }

  /** The two timers `StartTimers` creates, in creation order. */
  function FreshTimers(config: AgentConfiguration): seq<Timer> {
    [Timer(HeartbeatTimer, 0, config.HeartbeatInterval, false), Timer(TelemetryTimer, 10, config.TelemetryInterval, false)]
  }

  /** The session ends while the agent is still connected: the service was asked to stop. */
  predicate EndsConnected(config: AgentConfiguration, s: Session) {
    Connects(config, s) && s.stopRequested
  }

  /** The timers after one session: a connected session stops the old timers and starts
      two new ones; when the connection is then lost the `Reconnecting` handler stops
      those too. A session that never connects leaves the timers alone. */
  function SessionTimers(config: AgentConfiguration, s: Session, timers: seq<Timer>): (r: seq<Timer>)
    ensures |r| == |timers| + (if Connects(config, s) then 2 else 0)
  {
    if !Connects(config, s) then timers
    else
      var started := DisposeAll(timers) + FreshTimers(config);
      if s.stopRequested then started else DisposeAll(started)
  }

  /** The timers after `sessions`, starting from `timers`. */
  function RunTimers(config: AgentConfiguration, timers: seq<Timer>, sessions: seq<Session>): (r: seq<Timer>)
    ensures |r| == |timers| + 2 * Connections(config, sessions)
  {
    if sessions == [] then timers
    else SessionTimers(config, sessions[|sessions| - 1], RunTimers(config, timers, sessions[..|sessions| - 1]))
  }

  /** After a connection every older timer is disposed, and the two newest are live exactly
      when the session that made them ended still connected. */
  predicate SettledTimers(config: AgentConfiguration, last: Session, timers: seq<Timer>) {
    && |timers| >= 2
    && (forall i :: 0 <= i < |timers| - 2 ==> timers[i].disposed)
    && timers[|timers| - 2] == Timer(HeartbeatTimer, 0, config.HeartbeatInterval, !EndsConnected(config, last))
    && timers[|timers| - 1] == Timer(TelemetryTimer, 10, config.TelemetryInterval, !EndsConnected(config, last))
  }

  /** A connected session settles the timers: after a lost connection no timer is live, and
      after a stop only the two it started are. */
  lemma SessionTimersSettled(config: AgentConfiguration, s: Session, timers: seq<Timer>)
    requires Connects(config, s)
    ensures SettledTimers(config, s, SessionTimers(config, s, timers))
    ensures !s.stopRequested ==> forall i :: 0 <= i < |SessionTimers(config, s, timers)| ==>
      SessionTimers(config, s, timers)[i].disposed
  {
  }

  /** A run that connected at least once and was not stopped before its last session ends
      with settled timers: the ones the last connection started, disposed unless that
      connection was still up when the stop came. */
  lemma {:induction false} RunTimersSettled(config: AgentConfiguration, timers: seq<Timer>, sessions: seq<Session>)
    requires Connections(config, sessions) > 0
    requires forall j :: 0 <= j < |sessions| - 1 ==> !sessions[j].stopRequested
    ensures SettledTimers(config, sessions[|sessions| - 1], RunTimers(config, timers, sessions))
  {
    var prefix := sessions[..|sessions| - 1];
    var last := sessions[|sessions| - 1];
    var before := RunTimers(config, timers, prefix);
    if Connects(config, last) {
      SessionTimersSettled(config, last, before);
    } else {
      assert forall j :: 0 <= j < |prefix| - 1 ==> !prefix[j].stopRequested;
      RunTimersSettled(config, timers, prefix);
    }
  }

  /** What the session loop changes: the counter, the invocations sent, the timers and the
      two timer fields. */
  datatype LoopState = LoopState(
    attempts: int, invocations: seq<Invocation>, timers: seq<Timer>, heartbeat: Option<nat>, telemetry: Option<nat>)

  /** The registration one session sends, if any. */
  function SessionRegistration(agentId: string, config: AgentConfiguration, s: Session): seq<Invocation> {
    if Connects(config, s) && s.systemInfo.Returned?
    then [RegisterAgent(agentId, RegistrationPayload(agentId, config, s.systemInfo.value, s.registeredAt))]
    else []
  }

  /** The registrations the loop sends over `sessions`. */
  function Registrations(agentId: string, config: AgentConfiguration, sessions: seq<Session>): seq<Invocation> {
    if sessions == [] then []
    else
      var last := sessions[|sessions| - 1];
      Registrations(agentId, config, sessions[..|sessions| - 1]) + SessionRegistration(agentId, config, last)
  }

  /** How the loop's summaries grow by one session. */
  lemma SessionStep(agentId: string, config: AgentConfiguration, attempts0: int, sessions: seq<Session>, n: nat)
    requires n < |sessions|
    ensures var p := sessions[..n]; var q := sessions[..n + 1]; var s := sessions[n];
      && Drops(config, q) == Drops(config, p) + (if Connects(config, s) && !s.stopRequested then 1 else 0)
      && Connections(config, q) == Connections(config, p) + (if Connects(config, s) then 1 else 0)
      && Registrations(agentId, config, q) == Registrations(agentId, config, p) + SessionRegistration(agentId, config, s)
  {
    assert sessions[..n + 1][..n] == sessions[..n];
  }

  lemma DelaysAppend(config: AgentConfiguration, attempts0: int, sessions: seq<Session>, n: nat, attempts: int)
    requires n < |sessions| && attempts == attempts0 + Drops(config, sessions[..n + 1])
    ensures var d := SessionDelay(config, sessions[n], attempts);
      Delays(config, attempts0, sessions[..n + 1]) ==
      Delays(config, attempts0, sessions[..n]) + (if d.Some? then [d.value] else [])
  {
    assert sessions[..n + 1][..n] == sessions[..n];
  }

  /** The state after one session that began in `before`. */
  function AfterSession(agentId: string, config: AgentConfiguration, s: Session, before: LoopState): LoopState {
    LoopState(
      before.attempts + (if Connects(config, s) && !s.stopRequested then 1 else 0),
      before.invocations + SessionRegistration(agentId, config, s),
      SessionTimers(config, s, before.timers),
      if Connects(config, s) then Some(|before.timers|) else before.heartbeat,
      if Connects(config, s) then Some(|before.timers| + 1) else before.telemetry)
  }

  /** The loop has gone through the first `k` sessions: from `start`, the state `now` and
      the waits `delays` are what those sessions give. */
  predicate Progress(
    agentId: string, config: AgentConfiguration, sessions: seq<Session>, k: nat,
    start: LoopState, now: LoopState, delays: seq<int>)
  {
    && k <= |sessions|
    && now.attempts == start.attempts + Drops(config, sessions[..k])
    && delays == Delays(config, start.attempts, sessions[..k])
    && now.invocations == start.invocations + Registrations(agentId, config, sessions[..k])
    && now.timers == RunTimers(config, start.timers, sessions[..k])
    && (Connections(config, sessions[..k]) == 0 ==> now.heartbeat == start.heartbeat && now.telemetry == start.telemetry)
    && (Connections(config, sessions[..k]) > 0 ==>
          now.heartbeat == Some(|now.timers| - 2) && now.telemetry == Some(|now.timers| - 1))
  }

  /** The timer fields after one more session: the two new timers when it connected,
      the fields as they were otherwise. */
  lemma FieldsStep(
    agentId: string, config: AgentConfiguration, sessions: seq<Session>, n: nat,
    start: LoopState, before: LoopState, delays: seq<int>)
    requires n < |sessions| && Progress(agentId, config, sessions, n, start, before, delays)
    ensures var after := AfterSession(agentId, config, sessions[n], before); var q := sessions[..n + 1];
      && (Connects(config, sessions[n]) ==>
            after.heartbeat == Some(|after.timers| - 2) && after.telemetry == Some(|after.timers| - 1))
      && (!Connects(config, sessions[n]) && Connections(config, q) > 0 ==>
            after.heartbeat == Some(|after.timers| - 2) && after.telemetry == Some(|after.timers| - 1))
      && (Connections(config, q) == 0 ==> after.heartbeat == start.heartbeat && after.telemetry == start.telemetry)
  {
    SessionStep(agentId, config, start.attempts, sessions, n);
  }

  /** One more session moves the loop's progress on by one. */
  lemma ProgressStep(
    agentId: string, config: AgentConfiguration, sessions: seq<Session>, n: nat,
    start: LoopState, before: LoopState, delays: seq<int>)
    requires n < |sessions| && Progress(agentId, config, sessions, n, start, before, delays)
    ensures var after := AfterSession(agentId, config, sessions[n], before);
      var d := SessionDelay(config, sessions[n], after.attempts);
      Progress(agentId, config, sessions, n + 1, start, after, if d.Some? then delays + [d.value] else delays)
  {
    var s := sessions[n];
    var after := AfterSession(agentId, config, s, before);
    var p := sessions[..n];
    var q := sessions[..n + 1];
    assert q[..n] == p;
    SessionStep(agentId, config, start.attempts, sessions, n);
    DelaysAppend(config, start.attempts, sessions, n, after.attempts);
    assert after.timers == RunTimers(config, start.timers, q) by {
      assert RunTimers(config, start.timers, q) == SessionTimers(config, s, RunTimers(config, start.timers, p));
    }
    FieldsStep(agentId, config, sessions, n, start, before, delays);
  }

  /** A run that connected and stopped only at its last session leaves settled timers. */
  lemma RunSettles(
    agentId: string, config: AgentConfiguration, sessions: seq<Session>, k: nat,
    start: LoopState, now: LoopState, delays: seq<int>)
    requires Progress(agentId, config, sessions, k, start, now, delays)
    requires Connections(config, sessions[..k]) > 0
    requires forall j :: 0 <= j < k - 1 ==> !sessions[j].stopRequested
    ensures SettledTimers(config, sessions[k - 1], now.timers)
  {
    RunTimersSettled(config, start.timers, sessions[..k]);
    assert sessions[..k][k - 1] == sessions[k - 1];
  }

  /** A run in which every session connects and is then lost, starting from a fresh counter,
      waits `ReconnectDelay * k` before the k-th reconnect up to the cap, and 0 after it. */
  lemma {:induction false} DelaysOfRepeatedDrops(config: AgentConfiguration, sessions: seq<Session>)
    requires forall i :: 0 <= i < |sessions| ==> Connects(config, sessions[i]) && !sessions[i].stopRequested
    ensures Drops(config, sessions) == |sessions|
    ensures Delays(config, 0, sessions) == seq(|sessions|, i => BackoffDelay(config, i + 1))
  {
    if sessions != [] {
      var prefix := sessions[..|sessions| - 1];
      DelaysOfRepeatedDrops(config, prefix);
    }
  }

  /** Without a hub URL no session connects: the counter never moves and every wait is
      `ReconnectDelay`. */
  lemma {:induction false} DelaysWithoutHubUrl(config: AgentConfiguration, sessions: seq<Session>)
    requires !HubUrlConfigured(config)
    requires forall i :: 0 <= i < |sessions| ==> !sessions[i].stopRequested
    ensures Drops(config, sessions) == 0 && Connections(config, sessions) == 0
    ensures Delays(config, 0, sessions) == seq(|sessions|, _ => config.ReconnectDelay)
  {
    if sessions != [] {
      var prefix := sessions[..|sessions| - 1];
      DelaysWithoutHubUrl(config, prefix);
    }
  }

  /** Under a valid configuration, starting from a non-negative counter, every wait the
      loop takes is one `Task.Delay` accepts. */
  lemma {:induction false} DelaysNonNegative(config: AgentConfiguration, attempts0: int, sessions: seq<Session>)
    requires ValidConfiguration(config) && attempts0 >= 0
    ensures forall i :: 0 <= i < |Delays(config, attempts0, sessions)| ==> Delays(config, attempts0, sessions)[i] >= 0
  {
    if sessions != [] {
      var prefix := sessions[..|sessions| - 1];
      DelaysNonNegative(config, attempts0, prefix);
      var attempts := attempts0 + Drops(config, sessions);
      if attempts <= config.MaxReconnectAttempts {
        MulNonNegative(config.ReconnectDelay, attempts);
      }
    }
  }

  lemma {:induction false} MulNonNegative(c: int, a: int)
    requires c >= 0 && a >= 0
    ensures c * a >= 0
    decreases a
  {
    if a > 0 {
      MulNonNegative(c, a - 1);
      assert c * a == c * (a - 1) + c;
    }
  }

  // ---------------------------------------------------------------- the service

  class AgentService {
    const config: AgentConfiguration
    const agentId: string
    /** The `Environment.MachineName` the telemetry collector reports. */
    const machineName: string
    /** Every timer the service has created, oldest first. */
    var timers: seq<Timer>
    /** `_heartbeatTimer` and `_telemetryTimer`, as positions in `timers`. */
    var heartbeatTimer: Option<nat>
    var telemetryTimer: Option<nat>
    /** `_reconnectAttempts`. */
    var reconnectAttempts: int
    /** The hub methods invoked so far, in order. */
    var invocations: seq<Invocation>

    ghost predicate Valid()
      reads this
    {
      TimersConsistent(timers, heartbeatTimer, telemetryTimer, config)
    }

    /** The fields the session loop changes, as one value. */
    ghost function State(): LoopState
      reads this
    {
      LoopState(reconnectAttempts, invocations, timers, heartbeatTimer, telemetryTimer)
    }

    /** The agent id is fixed once, from the machine name and a fresh GUID. */
    constructor(config: AgentConfiguration, machineName: string, suffix: Guid)
      ensures Valid()
      ensures this.config == config && this.machineName == machineName
      ensures agentId == AgentIdFor(machineName, suffix)
      ensures timers == [] && heartbeatTimer.None? && telemetryTimer.None?
      ensures reconnectAttempts == 0 && invocations == []
    {
      this.config := config;
      this.machineName := machineName;
      agentId := machineName + "_" + FormatN(suffix)[..8];
      timers := [];
      heartbeatTimer := None;
      telemetryTimer := None;
      reconnectAttempts := 0;
      invocations := [];
    }

    /** Disposes the current timers. The fields keep pointing at the disposed timers, and
        afterwards no timer is live. */
    method StopTimers()
      requires Valid()
      modifies this`timers
      ensures Valid()
      ensures |timers| == |old(timers)|
      ensures forall i :: 0 <= i < |timers| ==> timers[i] == old(timers)[i].(disposed := true)
      ensures forall i :: 0 <= i < |timers| ==> timers[i].disposed
    {
      if heartbeatTimer.Some? {
        var h := heartbeatTimer.value;
        timers := timers[h := timers[h].(disposed := true)];
      }
      if telemetryTimer.Some? {
        var t := telemetryTimer.value;
        timers := timers[t := timers[t].(disposed := true)];
      }
    }

    /** Stops the current timers, then starts a heartbeat timer due at once and a telemetry
        timer due after ten seconds, each repeating at its configured interval. */
    method StartTimers()
      requires Valid()
      modifies this`timers, this`heartbeatTimer, this`telemetryTimer
      ensures Valid()
      ensures |timers| == |old(timers)| + 2
      ensures forall i :: 0 <= i < |old(timers)| ==> timers[i] == old(timers)[i].(disposed := true)
      ensures timers[|old(timers)|] == Timer(HeartbeatTimer, 0, config.HeartbeatInterval, false)
      ensures timers[|old(timers)| + 1] == Timer(TelemetryTimer, 10, config.TelemetryInterval, false)
      ensures heartbeatTimer == Some(|old(timers)|) && telemetryTimer == Some(|old(timers)| + 1)
    {
      StopTimers();
      timers := timers + [Timer(HeartbeatTimer, 0, config.HeartbeatInterval, false)];
      heartbeatTimer := Some(|timers| - 1);
      timers := timers + [Timer(TelemetryTimer, 10, config.TelemetryInterval, false)];
      telemetryTimer := Some(|timers| - 1);
    }

    /** The `Reconnecting` handler: the timers stop. */
    method OnReconnecting()
      requires Valid()
      modifies this`timers
      ensures Valid()
      ensures |timers| == |old(timers)|
      ensures forall i :: 0 <= i < |timers| ==> timers[i] == old(timers)[i].(disposed := true)
    {
      StopTimers();
    }

    /** The `Closed` handler: the timers stop. */
    method OnClosed()
      requires Valid()
      modifies this`timers
      ensures Valid()
      ensures |timers| == |old(timers)|
      ensures forall i :: 0 <= i < |timers| ==> timers[i] == old(timers)[i].(disposed := true)
    {
      StopTimers();
    }

    /** `RegisterAgent`: sends the registration payload when the system information could
        be read. A failure of either step is logged and swallowed. */
    method Register(systemInfo: Outcome<SystemInfoDto>, now: DateTime)
      modifies this`invocations
      ensures invocations == old(invocations) +
        (if systemInfo.Returned?
         then [RegisterAgent(agentId, RegistrationPayload(agentId, config, systemInfo.value, now))]
         else [])
    {
      if systemInfo.Returned? {
        var registration := RegistrationPayload(agentId, config, systemInfo.value, now);
        invocations := invocations + [RegisterAgent(agentId, registration)];
      }
    }

    /** The `Reconnected` handler: the counter goes back to zero, the agent registers again
        and the timers restart. */
    method OnReconnected(systemInfo: Outcome<SystemInfoDto>, now: DateTime)
      requires Valid()
      modifies this`reconnectAttempts, this`invocations, this`timers, this`heartbeatTimer, this`telemetryTimer
      ensures Valid()
      ensures reconnectAttempts == 0
      ensures invocations == old(invocations) +
        (if systemInfo.Returned?
         then [RegisterAgent(agentId, RegistrationPayload(agentId, config, systemInfo.value, now))]
         else [])
      ensures |timers| == |old(timers)| + 2
      ensures forall i :: 0 <= i < |old(timers)| ==> timers[i] == old(timers)[i].(disposed := true)
      ensures heartbeatTimer == Some(|old(timers)|) && telemetryTimer == Some(|old(timers)| + 1)
      ensures timers[|old(timers)|] == Timer(HeartbeatTimer, 0, config.HeartbeatInterval, false)
      ensures timers[|old(timers)| + 1] == Timer(TelemetryTimer, 10, config.TelemetryInterval, false)
    {
      reconnectAttempts := 0;
      Register(systemInfo, now);
      StartTimers();
    }

    /** A heartbeat tick: sends only while the connection is `Connected`. */
    method SendHeartbeat(state: HubConnectionState)
      modifies this`invocations
      ensures invocations == old(invocations) + (if state == Connected then [Heartbeat(agentId)] else [])
    {
      if state == Connected {
        invocations := invocations + [Heartbeat(agentId)];
      }
    }

    /** A telemetry tick: collects and sends a snapshot only while the connection is
        `Connected`. */
    method SendTelemetryTick(state: HubConnectionState, sample: TelemetryCollector.Sample)
      modifies this`invocations
      ensures invocations == old(invocations) +
        (if state == Connected then [SendTelemetry(agentId, TelemetryCollector.CollectTelemetry(sample))] else [])
    {
      if state == Connected {
        var telemetry := TelemetryCollector.CollectTelemetry(sample);
        invocations := invocations + [SendTelemetry(agentId, telemetry)];
      }
    }

    /** `ExecuteCommandAsync`: builds the result field by field, turns any exception into a
        failed result, and reports it exactly once; a failed report is not retried. */
    method ExecuteCommand(command: CommandDto, systemInfo: Outcome<string>, executedAt: DateTime, completedAt: DateTime)
      modifies this`invocations
      ensures invocations == old(invocations) +
        [ReportCommandResult(command.CommandId, CommandResult(command, systemInfo, executedAt, completedAt))]
    {
      var result := CommandResultDto(command.CommandId, "", None, None, None, executedAt, executedAt);
      if command.CommandType.None? {
        result := result.(ErrorMessage := Some(NullReferenceMessage));
        result := result.(Status := Failed);
      } else {
        var lowered := ToLower(command.CommandType.value);
        if lowered == "ping" {
          result := result.(Result := Some("pong"));
          result := result.(Status := Completed);
        } else if lowered == "systeminfo" {
          if systemInfo.Returned? {
            result := result.(Result := Some(systemInfo.value));
            result := result.(Status := Completed);
          } else {
            result := result.(ErrorMessage := Some(systemInfo.message));
            result := result.(Status := Failed);
          }
        } else {
          result := result.(ErrorMessage := Some("Unknown command type: " + command.CommandType.value));
          result := result.(Status := Failed);
        }
      }
      result := result.(CompletedAt := completedAt);
      invocations := invocations + [ReportCommandResult(command.CommandId, result)];
    }

    /** `HandleReconnection`: counts one more attempt and returns how long to wait. Past the
        cap it returns at once; the session loop goes on. */
    method HandleReconnection() returns (delay: int)
      modifies this`reconnectAttempts
      ensures reconnectAttempts == old(reconnectAttempts) + 1
      ensures delay == BackoffDelay(config, reconnectAttempts)
    {
      reconnectAttempts := reconnectAttempts + 1;
      if reconnectAttempts > config.MaxReconnectAttempts {
        return 0;
      }
      delay := config.ReconnectDelay * reconnectAttempts;
    }

    /** `ConnectToHub`: without a hub URL it throws before building a connection; otherwise
        the outcome is how `StartAsync` ended. */
    method ConnectToHub(startFailure: Option<string>) returns (failure: Option<string>)
      ensures failure.None? <==> HubUrlConfigured(config) && startFailure.None?
      ensures !HubUrlConfigured(config) ==> failure == Some("Hub URL not configured")
      ensures HubUrlConfigured(config) ==> failure == startFailure
    {
      if config.HubUrl.None? || config.HubUrl.value == "" {
        return Some("Hub URL not configured");
      }
      failure := startFailure;
    }

    /** One pass of the session loop: connect, register, start the timers and, once the
        connection is lost (the `Reconnecting` handler stops the timers), count the
        attempt. Returns the wait that follows, or `None` when a stop was requested. */
    method RunSession(s: Session) returns (delay: Option<int>)
      requires Valid()
      modifies this`timers, this`heartbeatTimer, this`telemetryTimer
      modifies this`reconnectAttempts, this`invocations
      ensures Valid()
      ensures reconnectAttempts == old(reconnectAttempts) + (if Connects(config, s) && !s.stopRequested then 1 else 0)
      ensures delay == SessionDelay(config, s, reconnectAttempts)
      ensures invocations == old(invocations) + SessionRegistration(agentId, config, s)
      ensures timers == SessionTimers(config, s, old(timers))
      ensures Connects(config, s) ==> heartbeatTimer == Some(|timers| - 2) && telemetryTimer == Some(|timers| - 1)
      ensures !Connects(config, s) ==> heartbeatTimer == old(heartbeatTimer) && telemetryTimer == old(telemetryTimer)
      ensures State() == AfterSession(agentId, config, s, old(State()))
    {
      var failure := ConnectToHub(s.startFailure);
      if failure.None? {
        Register(s.systemInfo, s.registeredAt);
        StartTimers();
        assert timers == DisposeAll(old(timers)) + FreshTimers(config);
        if s.stopRequested {
          return None;
        }
        ghost var started := timers;
        OnReconnecting();
        assert timers == DisposeAll(started);
        var d := HandleReconnection();
        return Some(d);
      }
      if s.stopRequested {
        return None;
      }
      return Some(config.ReconnectDelay);
    }

    /** One pass of the `ExecuteAsync` loop, over `sessions[n]`: the counter, the waits,
        the registrations, the timers and the timer fields move on from the first `n`
        sessions to the first `n + 1`. */
    method Pass(sessions: seq<Session>, n: nat, ghost start: LoopState, delays: seq<int>)
      returns (delays': seq<int>)
      requires Valid() && n < |sessions|
      requires Progress(agentId, config, sessions, n, start, State(), delays)
      modifies this`timers, this`heartbeatTimer, this`telemetryTimer
      modifies this`reconnectAttempts, this`invocations
      ensures Valid()
      ensures Progress(agentId, config, sessions, n + 1, start, State(), delays')
    {
      ghost var before := State();
      ProgressStep(agentId, config, sessions, n, start, before, delays);
      var delay := RunSession(sessions[n]);
      delays' := if delay.Some? then delays + [delay.value] else delays;
    }

    /** `ExecuteAsync`: one pass per session until a stop is requested. A failed connect
        waits `ReconnectDelay`; a lost connection goes through `HandleReconnection`. The
        loop never resets the counter. `processed` is the number of sessions used. After
        a run that connected, only the timers of the last connection can be live, and only
        when that connection was still up when the stop came. */
    method Run(sessions: seq<Session>) returns (delays: seq<int>, processed: nat)
      requires Valid()
      modifies this`timers, this`heartbeatTimer, this`telemetryTimer
      modifies this`reconnectAttempts, this`invocations
      ensures Valid()
      ensures processed == SessionsUsed(sessions)
      ensures Progress(agentId, config, sessions, processed, old(State()), State(), delays)
      ensures Connections(config, sessions[..processed]) > 0 ==> SettledTimers(config, sessions[processed - 1], timers)
    {
      ghost var start := State();
      delays := [];
      processed := 0;
      var stopped := false;
      while processed < |sessions| && !stopped
        invariant Valid() && Progress(agentId, config, sessions, processed, start, State(), delays)
        invariant forall j :: 0 <= j < processed - 1 ==> !sessions[j].stopRequested
        invariant stopped <==> processed > 0 && sessions[processed - 1].stopRequested
        decreases |sessions| - processed
      {
        delays := Pass(sessions, processed, start, delays);
        stopped := sessions[processed].stopRequested;
        processed := processed + 1;
      }
      SessionsUsedExactly(sessions, processed);
      if Connections(config, sessions[..processed]) > 0 {
        RunSettles(agentId, config, sessions, processed, start, State(), delays);
      }
    }

    /** `StopAsync`: the timers stop. */
    method Stop()
      requires Valid()
      modifies this`timers
      ensures Valid()
      ensures |timers| == |old(timers)|
      ensures forall i :: 0 <= i < |timers| ==> timers[i] == old(timers)[i].(disposed := true) && timers[i].disposed
    {
      StopTimers();
    }
  }
}
