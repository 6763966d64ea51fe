/** The agent's telemetry collector: one snapshot built from the host probes, and two
    ways of narrowing its `CustomMetrics` to the metrics a caller names. The host probes
    (performance counters, system information) and the clock are inputs. */
module TelemetryCollector {
  import opened Common
  import opened Text
  import opened Models

  /** What the two host probes returned on one call. */
  datatype Reading = Reading(performance: PerformanceMetricsDto, systemInfo: SystemInfoDto)

  /** Everything one call of `CollectTelemetryAsync()` observes: the machine name, the
      probes' outcome (they may throw) and the two clock reads. */
  datatype Sample = Sample(
    machineName: string, reading: Outcome<Reading>, timestamp: DateTime, collectionTime: DateTime)

  /** The keys of the default `CustomMetrics` map. */
  const DefaultMetricKeys: set<string> :=
    {"CollectionTime", "AgentVersion", "ProcessCount", "ServiceCount", "SystemUptime"}

  /** `CollectTelemetryAsync()`: a snapshot of the probes with the five default custom
      metrics; when a probe throws, a bare record naming the machine and tenant "default". */
  function CollectTelemetry(s: Sample): (t: TelemetryDto)
    ensures t.AgentId == s.machineName && t.TenantCode == "default"
    ensures t.Timestamp == s.timestamp && t.TenantId.None?
    ensures s.reading.Returned? ==>
      && t.CustomMetrics.Keys == DefaultMetricKeys
      && t.CpuUsage == s.reading.value.performance.CpuUsagePercent
      && t.MemoryUsage == s.reading.value.performance.MemoryUsedMB as real
      && t.DiskUsage == s.reading.value.performance.DiskUsagePercent
      && t.NetworkIn == s.reading.value.performance.NetworkBytesInPerSec
      && t.NetworkOut == s.reading.value.performance.NetworkBytesOutPerSec
      && t.SystemInfo == s.reading.value.systemInfo
      && t.CustomMetrics["AgentVersion"] == Text("1.0.0")
      && t.CustomMetrics["CollectionTime"] == Instant(s.collectionTime)
      && t.CustomMetrics["ProcessCount"] == Integer(s.reading.value.performance.ProcessCount)
      && t.CustomMetrics["ServiceCount"] == Integer(s.reading.value.performance.ServiceCount)
      && t.CustomMetrics["SystemUptime"] == Number(s.reading.value.performance.SystemUptime)
    ensures s.reading.Threw? ==>
      && t.CustomMetrics == map[]
      && t.CpuUsage == 0.0 && t.MemoryUsage == 0.0 && t.DiskUsage == 0.0
      && t.NetworkIn == 0.0 && t.NetworkOut == 0.0
      && t.SystemInfo == EmptySystemInfo
  {
    match s.reading
    case Returned(Reading(perf, info)) =>
      TelemetryDto(
        s.machineName, "default", None, s.timestamp,
        perf.CpuUsagePercent, perf.MemoryUsedMB as real, perf.DiskUsagePercent,
        perf.NetworkBytesInPerSec, perf.NetworkBytesOutPerSec, info,
        map[
          "CollectionTime" := Instant(s.collectionTime),
          "AgentVersion" := Text("1.0.0"),
          "ProcessCount" := Integer(perf.ProcessCount),
          "ServiceCount" := Integer(perf.ServiceCount),
          "SystemUptime" := Number(perf.SystemUptime)])
    case Threw(_) =>
      TelemetryDto(s.machineName, "default", None, s.timestamp, 0.0, 0.0, 0.0, 0.0, 0.0,
        EmptySystemInfo, map[])
  }

  /** The metric names the filters recognise, after lower-casing. */
  predicate IsKnownMetric(lowered: string) {
    lowered == "cpu" || lowered == "memory" || lowered == "disk" || lowered == "network"
  }

  /** The `CustomMetrics` keys a lower-cased metric name selects. */
  function KeysFor(lowered: string): (keys: set<string>)
    ensures keys != {} <==> IsKnownMetric(lowered)
  {
    if lowered == "cpu" then {"CpuUsage"}
    else if lowered == "memory" then {"MemoryUsage"}
    else if lowered == "disk" then {"DiskUsage"}
    else if lowered == "network" then {"NetworkIn", "NetworkOut"}
    else {}
  }

  predicate IsFilterKey(k: string) {
    k == "CpuUsage" || k == "MemoryUsage" || k == "DiskUsage" || k == "NetworkIn" || k == "NetworkOut"
  }

  /** The top-level field of the snapshot a filter key copies. */
  function FieldValue(t: TelemetryDto, k: string): MetricValue
    requires IsFilterKey(k)
  {
    if k == "CpuUsage" then Number(t.CpuUsage)
    else if k == "MemoryUsage" then Number(t.MemoryUsage)
    else if k == "DiskUsage" then Number(t.DiskUsage)
    else if k == "NetworkIn" then Number(t.NetworkIn)
    else Number(t.NetworkOut)
  }

  /** The union of the keys every requested name selects, names compared case-insensitively. */
  function UnionKeys(names: seq<string>): (keys: set<string>)
    ensures forall k :: k in keys ==> IsFilterKey(k)
  {
    set i, k | 0 <= i < |names| && k in KeysFor(ToLower(names[i])) :: k
  }

  /** The recognised names a request holds, lower-cased: duplicates and order are gone. */
  function Recognised(names: seq<string>): set<string> {
    set i | 0 <= i < |names| && IsKnownMetric(ToLower(names[i])) :: ToLower(names[i])
  }

  /** The filtered `CustomMetrics`: exactly the selected keys, each holding the snapshot's
      own top-level value. */
  function FilteredMetrics(t: TelemetryDto, names: seq<string>): (m: map<string, MetricValue>)
    ensures m.Keys == UnionKeys(names)
    ensures forall k :: k in m ==> m[k] == FieldValue(t, k)
  {
    map k | k in UnionKeys(names) :: FieldValue(t, k)
  }

  /** The requested names, when none of them is `null`. */
  predicate NoNullNames(metrics: seq<Option<string>>) {
    forall i :: 0 <= i < |metrics| ==> metrics[i].Some?
  }

  function Names(metrics: seq<Option<string>>): (names: seq<string>)
    requires NoNullNames(metrics)
    ensures |names| == |metrics|
    ensures forall i :: 0 <= i < |metrics| ==> names[i] == metrics[i].value
  {
    seq(|metrics|, i requires 0 <= i < |metrics| => metrics[i].value)
  }

  lemma UnionKeysSnoc(names: seq<string>, n: string)
    ensures UnionKeys(names + [n]) == UnionKeys(names) + KeysFor(ToLower(n))
  {
    var ext := names + [n];
    forall k | k in UnionKeys(ext) ensures k in UnionKeys(names) + KeysFor(ToLower(n)) {
      var i :| 0 <= i < |ext| && k in KeysFor(ToLower(ext[i]));
      if i < |names| { assert ext[i] == names[i]; }
    }
    forall k | k in UnionKeys(names) ensures k in UnionKeys(ext) {
      var i :| 0 <= i < |names| && k in KeysFor(ToLower(names[i]));
      assert ext[i] == names[i];
    }
    forall k | k in KeysFor(ToLower(n)) ensures k in UnionKeys(ext) {
      assert ext[|names|] == n;
    }
  }

  /** The filter of a single name, spelled out. */
  lemma SingleFilter(t: TelemetryDto, name: string)
    ensures var m := FilteredMetrics(t, [name]); var lowered := ToLower(name);
      && (lowered == "cpu" ==> m == map["CpuUsage" := Number(t.CpuUsage)])
      && (lowered == "memory" ==> m == map["MemoryUsage" := Number(t.MemoryUsage)])
      && (lowered == "disk" ==> m == map["DiskUsage" := Number(t.DiskUsage)])
      && (lowered == "network" ==>
            m == map["NetworkIn" := Number(t.NetworkIn), "NetworkOut" := Number(t.NetworkOut)])
      && (!IsKnownMetric(lowered) ==> m == map[])
  {
    UnionKeysSnoc([], name);
    assert [] + [name] == [name];
    assert UnionKeys([]) == {};
  }

  /** A map with the selected keys and the snapshot's values is the filtered map. */
  lemma FilteredMetricsUnique(t: TelemetryDto, names: seq<string>, m: map<string, MetricValue>)
    requires m.Keys == UnionKeys(names)
    requires forall k :: k in m ==> m[k] == FieldValue(t, k)
    ensures m == FilteredMetrics(t, names)
  {
  }

  /** One case of the filter's `switch`: copies the keys the name selects into `filtered`. */
  method SelectMetric(filtered: map<string, MetricValue>, telemetry: TelemetryDto, metric: string)
    returns (r: map<string, MetricValue>)
    ensures r.Keys == filtered.Keys + KeysFor(ToLower(metric))
    ensures forall k :: k in r ==> r[k] == if k in KeysFor(ToLower(metric)) then FieldValue(telemetry, k) else filtered[k]
  {
    r := filtered;
    var lowered := ToLower(metric);
    if lowered == "cpu" {
      r := r["CpuUsage" := Number(telemetry.CpuUsage)];
    } else if lowered == "memory" {
      r := r["MemoryUsage" := Number(telemetry.MemoryUsage)];
    } else if lowered == "disk" {
      r := r["DiskUsage" := Number(telemetry.DiskUsage)];
    } else if lowered == "network" {
      r := r["NetworkIn" := Number(telemetry.NetworkIn)];
      r := r["NetworkOut" := Number(telemetry.NetworkOut)];
    }
  }

  /** `CollectTelemetryAsync(string[] metrics)`: with a `null` or empty request the snapshot
      is returned as collected; otherwise its `CustomMetrics` is replaced by the filtered
      map, and a `null` name makes `ToLower` throw out of the call. */
  method CollectFiltered(s: Sample, metrics: Option<seq<Option<string>>>) returns (r: Outcome<TelemetryDto>)
    ensures metrics.None? || metrics.value == [] ==> r == Returned(CollectTelemetry(s))
    ensures metrics.Some? && metrics.value != [] && !NoNullNames(metrics.value) ==>
      r == Threw(NullReferenceMessage)
    ensures metrics.Some? && metrics.value != [] && NoNullNames(metrics.value) ==>
      r == Returned(CollectTelemetry(s).(CustomMetrics := FilteredMetrics(CollectTelemetry(s), Names(metrics.value))))
  {
    var telemetry := CollectTelemetry(s);
    if metrics.None? || |metrics.value| == 0 {
      return Returned(telemetry);
    }
    var ms := metrics.value;
    var filtered: map<string, MetricValue> := map[];
    ghost var names: seq<string> := [];
    for i := 0 to |ms|
      invariant NoNullNames(ms[..i]) && names == Names(ms[..i])
      invariant filtered.Keys == UnionKeys(names)
      invariant forall k :: k in filtered ==> filtered[k] == FieldValue(telemetry, k)
    {
      if ms[i].None? {
        assert !NoNullNames(ms);
        return Threw(NullReferenceMessage);
      }
      filtered := SelectMetric(filtered, telemetry, ms[i].value);
      UnionKeysSnoc(names, ms[i].value);
      assert ms[..i + 1] == ms[..i] + [ms[i]];
      names := names + [ms[i].value];
    }
    assert ms[..|ms|] == ms;
    FilteredMetricsUnique(telemetry, names, filtered);
    r := Returned(telemetry.(CustomMetrics := filtered));
  }

  /** The filtered map depends only on which metrics were recognised: repeating a name,
      reordering the request or changing the case of a name changes nothing. */
  lemma {:induction false} FilterDependsOnlyOnRecognised(t: TelemetryDto, a: seq<string>, b: seq<string>)
    requires Recognised(a) == Recognised(b)
    ensures FilteredMetrics(t, a) == FilteredMetrics(t, b)
  {
    forall k ensures k in UnionKeys(a) ==> k in UnionKeys(b) {
      if k in UnionKeys(a) { UnionKeysTransfer(a, b, k); }
    }
    forall k ensures k in UnionKeys(b) ==> k in UnionKeys(a) {
      if k in UnionKeys(b) { UnionKeysTransfer(b, a, k); }
    }
    assert UnionKeys(a) == UnionKeys(b);
  }

  lemma UnionKeysTransfer(a: seq<string>, b: seq<string>, k: string)
    requires Recognised(a) == Recognised(b) && k in UnionKeys(a)
    ensures k in UnionKeys(b)
  {
    var i :| 0 <= i < |a| && k in KeysFor(ToLower(a[i]));
    assert ToLower(a[i]) in Recognised(a);
    var j :| 0 <= j < |b| && IsKnownMetric(ToLower(b[j])) && ToLower(b[j]) == ToLower(a[i]);
    assert k in KeysFor(ToLower(b[j]));
  }

  /** A request made only of names the filter does not know yields an empty map. */
  lemma OnlyUnrecognisedIsEmpty(t: TelemetryDto, names: seq<string>)
    requires forall i :: 0 <= i < |names| ==> !IsKnownMetric(ToLower(names[i]))
    ensures FilteredMetrics(t, names) == map[]
  {
    assert UnionKeys(names) == {};
  }

  /** One name of the per-metric variant: a recognised name keeps only its own keys, an
      unrecognised one keeps the snapshot unchanged. */
  function NarrowTo(t: TelemetryDto, name: string): (n: TelemetryDto)
    ensures n == t.(CustomMetrics := n.CustomMetrics)
    ensures !IsKnownMetric(ToLower(name)) ==> n == t
  {
    var lowered := ToLower(name);
    if lowered == "cpu" then t.(CustomMetrics := map["CpuUsage" := Number(t.CpuUsage)])
    else if lowered == "memory" then t.(CustomMetrics := map["MemoryUsage" := Number(t.MemoryUsage)])
    else if lowered == "disk" then t.(CustomMetrics := map["DiskUsage" := Number(t.DiskUsage)])
    else if lowered == "network" then
      t.(CustomMetrics := map["NetworkIn" := Number(t.NetworkIn), "NetworkOut" := Number(t.NetworkOut)])
    else t
  }

  /** The message of the `ArgumentNullException` `string.Join` throws for a `null` array. */
  const NullArrayMessage: string := "Value cannot be null. (Parameter 'value')"

  /** `CollectSpecificMetricsAsync`: one fresh snapshot per requested name, in request
      order, each narrowed to that name. `samples[i]` is what the probes return on the
      i-th collection. A `null` name makes the whole call return an empty array; a `null`
      request makes the error log's `string.Join` throw out of the handler. */
  method CollectSpecific(samples: seq<Sample>, metrics: Option<seq<Option<string>>>)
    returns (r: Outcome<seq<TelemetryDto>>)
    requires metrics.Some? ==> |samples| >= |metrics.value|
    ensures metrics.None? ==> r == Threw(NullArrayMessage)
    ensures metrics.Some? && !NoNullNames(metrics.value) ==> r == Returned([])
    ensures metrics.Some? && NoNullNames(metrics.value) ==>
      && r.Returned? && |r.value| == |metrics.value|
      && forall i :: 0 <= i < |metrics.value| ==>
           r.value[i] == NarrowTo(CollectTelemetry(samples[i]), metrics.value[i].value)
  {
    if metrics.None? {
      return Threw(NullArrayMessage);
    }
    var ms := metrics.value;
    var results: seq<TelemetryDto> := [];
    for i := 0 to |ms|
      invariant NoNullNames(ms[..i])
      invariant |results| == i
      invariant forall j :: 0 <= j < i ==> results[j] == NarrowTo(CollectTelemetry(samples[j]), ms[j].value)
    {
      var telemetry := CollectTelemetry(samples[i]);
      if ms[i].None? {
        assert !NoNullNames(ms);
        return Returned([]);
      }
      var lowered := ToLower(ms[i].value);
      if lowered == "cpu" {
        telemetry := telemetry.(CustomMetrics := map["CpuUsage" := Number(telemetry.CpuUsage)]);
      } else if lowered == "memory" {
        telemetry := telemetry.(CustomMetrics := map["MemoryUsage" := Number(telemetry.MemoryUsage)]);
      } else if lowered == "disk" {
        telemetry := telemetry.(CustomMetrics := map["DiskUsage" := Number(telemetry.DiskUsage)]);
      } else if lowered == "network" {
        telemetry := telemetry.(CustomMetrics :=
          map["NetworkIn" := Number(telemetry.NetworkIn), "NetworkOut" := Number(telemetry.NetworkOut)]);
      }
      results := results + [telemetry];
    }
    assert ms[..|ms|] == ms;
    r := Returned(results);
  }

  /** In the per-metric variant a recognised name leaves exactly what the filtered
      variant leaves for a request of that name alone. */
  lemma NarrowToIsSingletonFilter(t: TelemetryDto, name: string)
    requires IsKnownMetric(ToLower(name))
    ensures NarrowTo(t, name) == t.(CustomMetrics := FilteredMetrics(t, [name]))
  {
    SingleFilter(t, name);
  }

  /** Whatever names are requested, a filtered snapshot reports what the probes read:
      each selected key holds the figure the performance probe returned. */
  lemma FilteredReportsProbes(s: Sample, names: seq<string>)
    requires s.reading.Returned?
    ensures var m := FilteredMetrics(CollectTelemetry(s), names); var p := s.reading.value.performance;
      && ("CpuUsage" in m ==> m["CpuUsage"] == Number(p.CpuUsagePercent))
      && ("MemoryUsage" in m ==> m["MemoryUsage"] == Number(p.MemoryUsedMB as real))
      && ("DiskUsage" in m ==> m["DiskUsage"] == Number(p.DiskUsagePercent))
      && ("NetworkIn" in m ==> m["NetworkIn"] == Number(p.NetworkBytesInPerSec))
      && ("NetworkOut" in m ==> m["NetworkOut"] == Number(p.NetworkBytesOutPerSec))
  {
  }

  /** When a probe throws, every selected key of the filtered snapshot reads zero. */
  lemma FilteredOfFailedReadingIsZero(s: Sample, names: seq<string>)
    requires s.reading.Threw?
    ensures forall k :: k in FilteredMetrics(CollectTelemetry(s), names) ==>
      FilteredMetrics(CollectTelemetry(s), names)[k] == Number(0.0)
  {
  }

  /** In the per-metric variant an unrecognised name leaves the default five metrics. */
  lemma UnrecognisedKeepsDefaults(s: Sample, name: string)
    requires s.reading.Returned? && !IsKnownMetric(ToLower(name))
    ensures NarrowTo(CollectTelemetry(s), name).CustomMetrics.Keys == DefaultMetricKeys
  {
  }
}
