/** The alert summary of `widgets/predictive_maintenance.py`: the predictive
    alerts followed by the stale-device alerts, split by severity, counted by
    type, and cut down to the few the dashboard shows. */
module PredictiveMaintenance {
  import opened Common
  import opened Sorting
  import opened Inventory
  import opened Predictions

  const DefaultTrendPeriodDays := 90
  const DefaultForecastHorizonDays := 180
  const DefaultGrowthThreshold := 5.0
  const DefaultStaleDays := 30

  /** The widget's configuration; an entry that is absent takes its default. */
  datatype MaintenanceConfig = MaintenanceConfig(
    trendPeriodDays: Option<int>, forecastHorizonDays: Option<int>,
    growthThreshold: Option<real>, staleDays: Option<int>)
  {
    function TrendPeriodDays(): int
    {
      if trendPeriodDays.Some? then trendPeriodDays.value else DefaultTrendPeriodDays
    }

    function ForecastHorizonDays(): int
    {
      if forecastHorizonDays.Some? then forecastHorizonDays.value else DefaultForecastHorizonDays
    }

    function GrowthThreshold(): real
    {
      if growthThreshold.Some? then growthThreshold.value else DefaultGrowthThreshold
    }

    function StaleDays(): int
    {
      if staleDays.Some? then staleDays.value else DefaultStaleDays
    }
  }

  /** The context the widget hands to its template (without the timestamp). */
  datatype AlertSummary = AlertSummary(
    totalAlerts: nat,
    highCount: nat, mediumCount: nat, lowCount: nat,
    highAlerts: seq<Alert>, mediumAlerts: seq<Alert>, lowAlerts: seq<Alert>,
    alertTypes: map<string, nat>,
    trendPeriodDays: int, forecastHorizonDays: int)

  /** The predictive alerts, in severity order, followed by the stale-device alerts. */
  function AllAlerts(prefixes: seq<Prefix>, snapshots: seq<Snapshot>, devices: seq<Device>,
                     trendPeriodDays: int, forecastHorizonDays: int, growthThreshold: real,
                     staleDays: int, now: int): seq<Alert>
  {
    InsertionSort(GeneratedAlerts(prefixes, snapshots, now - DaysInSeconds(trendPeriodDays),
                                  forecastHorizonDays, growthThreshold, now), SeverityKey)
      + StaleAlerts(devices, now - DaysInSeconds(staleDays), now)
  }

  // ---------------------------------------------------------------- types

  function IsType(k: string): Alert -> bool
  {
    (a: Alert) => a.TypeName() == k
  }

  /** The count a dictionary holds for `k`, 0 when it holds none. */
  function Get(m: map<string, nat>, k: string): nat
  {
    if k in m then m[k] else 0
  }

  /** The `alert_types` dictionary after counting `alerts` one at a time. */
  function TypeTally(alerts: seq<Alert>): map<string, nat>
  {
    if |alerts| == 0 then map[]
    else
      var m := TypeTally(alerts[..|alerts| - 1]);
      var k := alerts[|alerts| - 1].TypeName();
      m[k := Get(m, k) + 1]
  }

  /** Each type is a key exactly when some alert has it, and maps to the
      number of alerts of that type. */
  lemma {:induction false} TypeTallyCounts(alerts: seq<Alert>, k: string)
    ensures Get(TypeTally(alerts), k) == Count(alerts, IsType(k))
    ensures k in TypeTally(alerts) <==> Count(alerts, IsType(k)) > 0
  {
    if |alerts| > 0 {
      var front, last := alerts[..|alerts| - 1], alerts[|alerts| - 1];
      TypeTallyCounts(front, k);
      assert alerts == front + [last];
      FilterStep(front, last, IsType(k));
    }
  }

  /** The type counts add up to the number of alerts. */
  lemma {:induction false} TypeTallySum(alerts: seq<Alert>)
    ensures SumValues(TypeTally(alerts)) == |alerts|
  {
    if |alerts| > 0 {
      var front := alerts[..|alerts| - 1];
      var m := TypeTally(front);
      var k := alerts[|alerts| - 1].TypeName();
      TypeTallySum(front);
      SumValuesUpdate(m, k, Get(m, k) + 1);
    }
  }

  predicate KnownType(k: string)
  {
    k == "ipam_exhaustion" || k == "anomaly_detected" || k == "stale_device_data"
  }

  /** Every alert carries one of the three types the engine emits, so no
      alert is ever counted as 'unknown'. */
  lemma TypeTallyKeys(alerts: seq<Alert>)
    ensures forall k :: k in TypeTally(alerts) ==> KnownType(k)
  {
    forall k | k in TypeTally(alerts) ensures KnownType(k) {
      TypeTallyCounts(alerts, k);
      CountPositive(alerts, IsType(k));
    }
  }

  /** The `alert_types` loop. */
  method CountAlertTypes(alerts: seq<Alert>) returns (types: map<string, nat>)
    ensures types == TypeTally(alerts)
  {
    types := map[];
    for i := 0 to |alerts|
      invariant types == TypeTally(alerts[..i])
    {
      var alertType := alerts[i].TypeName();
      assert alerts[..i + 1][..i] == alerts[..i];
      types := types[alertType := Get(types, alertType) + 1];
    }
    assert alerts[..|alerts|] == alerts;
  }

  // ------------------------------------------------------------ severities

  /** Every alert has exactly one of the three severities, so the three
      priority counts add up to the total. */
  lemma SeverityPartition(alerts: seq<Alert>)
    ensures Count(alerts, OfSeverity(High)) + Count(alerts, OfSeverity(Medium))
              + Count(alerts, OfSeverity(Low)) == |alerts|
  {
    PartitionCount(alerts, OfSeverity(High), OfSeverity(Medium), OfSeverity(Low));
  }

  predicate NeverLow(alerts: seq<Alert>)
  {
    forall i :: 0 <= i < |alerts| ==> alerts[i].severity != Low
  }

  predicate AllLow(alerts: seq<Alert>)
  {
    forall i :: 0 <= i < |alerts| ==> alerts[i].severity == Low
  }

  /** Stale-device alerts are all low. */
  lemma {:induction false} StaleAllLow(devices: seq<Device>, cutoff: int, now: int)
    ensures AllLow(StaleAlerts(devices, cutoff, now))
  {
    if |devices| > 0 {
      var front, d := devices[..|devices| - 1], devices[|devices| - 1];
      var earlier := StaleAlerts(front, cutoff, now);
      var r := StaleAlerts(devices, cutoff, now);
      StaleAllLow(front, cutoff, now);
      assert r == earlier + (if IsStale(d, cutoff) then [StaleAlert(d, now)] else []);
      forall i | 0 <= i < |r| ensures r[i].severity == Low {
        if i < |earlier| {
          assert r[i] == earlier[i];
        }
      }
    }
  }

  /** Exhaustion alerts are high or medium, never low. */
  lemma {:induction false} ExhaustionNeverLow(prefixes: seq<Prefix>, snapshots: seq<Snapshot>, cutoff: int,
                                             horizonDays: int, growthThreshold: real, now: int)
    ensures NeverLow(ExhaustionAlerts(prefixes, snapshots, cutoff, horizonDays, growthThreshold, now))
  {
    if |prefixes| > 0 {
      var front, last := prefixes[..|prefixes| - 1], prefixes[|prefixes| - 1];
      var points := Window(snapshots, last.id, cutoff);
      var a := PrefixExhaustion(last, points, horizonDays, growthThreshold, now);
      var earlier := ExhaustionAlerts(front, snapshots, cutoff, horizonDays, growthThreshold, now);
      ExhaustionNeverLow(front, snapshots, cutoff, horizonDays, growthThreshold, now);
      if a.Some? {
        assert a == ExhaustionAlert(last, points[|points| - 1].value, GrowthRate(points),
                                    horizonDays, growthThreshold, now);
        assert a.value.severity != Low;
      }
      var r := ExhaustionAlerts(prefixes, snapshots, cutoff, horizonDays, growthThreshold, now);
      assert r == earlier + (if a.Some? then [a.value] else []);
      forall i | 0 <= i < |r| ensures r[i].severity != Low {
        if i < |earlier| {
          assert r[i] == earlier[i];
        }
      }
    }
  }

  /** Anomaly alerts are medium, never low. */
  lemma {:induction false} AnomalyNeverLow(prefixes: seq<Prefix>, snapshots: seq<Snapshot>, cutoff: int)
    ensures NeverLow(AnomalyAlerts(prefixes, snapshots, cutoff))
  {
    if |prefixes| > 0 {
      var front, last := prefixes[..|prefixes| - 1], prefixes[|prefixes| - 1];
      var a := AnomalyAlert(last, Window(snapshots, last.id, cutoff));
      var earlier := AnomalyAlerts(front, snapshots, cutoff);
      AnomalyNeverLow(front, snapshots, cutoff);
      var r := AnomalyAlerts(prefixes, snapshots, cutoff);
      assert r == earlier + (if a.Some? then [a.value] else []);
      forall i | 0 <= i < |r| ensures r[i].severity != Low {
        if i < |earlier| {
          assert r[i] == earlier[i];
        }
      }
    }
  }

  /** The generated alerts hold no low-severity alert. */
  lemma GeneratedNeverLow(prefixes: seq<Prefix>, snapshots: seq<Snapshot>, cutoff: int,
                          horizonDays: int, growthThreshold: real, now: int)
    ensures Filter(GeneratedAlerts(prefixes, snapshots, cutoff, horizonDays, growthThreshold, now),
                   OfSeverity(Low)) == []
  {
    var active := Filter(prefixes, IsActivePrefix);
    var exhaustion := ExhaustionAlerts(active, snapshots, cutoff, horizonDays, growthThreshold, now);
    var anomalies := AnomalyAlerts(active, snapshots, cutoff);
    ExhaustionNeverLow(active, snapshots, cutoff, horizonDays, growthThreshold, now);
    AnomalyNeverLow(active, snapshots, cutoff);
    FilterNone(exhaustion, OfSeverity(Low));
    FilterNone(anomalies, OfSeverity(Low));
    FilterConcat(exhaustion, anomalies, OfSeverity(Low));
  }

  /** Appending low-severity alerts to the sorted alerts leaves the high or
      medium list the generated alerts of that severity, in generation order. */
  lemma GeneratedOfSeverity(generated: seq<Alert>, stale: seq<Alert>, s: Severity)
    requires s != Low
    requires AllLow(stale)
    ensures Filter(InsertionSort(generated, SeverityKey) + stale, OfSeverity(s)) == Filter(generated, OfSeverity(s))
  {
    AlertOrder(generated, s);
    FilterConcat(InsertionSort(generated, SeverityKey), stale, OfSeverity(s));
    FilterNone(stale, OfSeverity(s));
  }

  /** When the generated alerts hold no low alert, the low list is exactly the
      low-severity alerts appended after them. */
  lemma OnlyStaleLow(generated: seq<Alert>, stale: seq<Alert>)
    requires Filter(generated, OfSeverity(Low)) == []
    requires AllLow(stale)
    ensures Filter(InsertionSort(generated, SeverityKey) + stale, OfSeverity(Low)) == stale
  {
    var sorted := InsertionSort(generated, SeverityKey);
    AlertOrder(generated, Low);
    FilterAfterNone(sorted, stale, OfSeverity(Low));
    FilterAll(stale, OfSeverity(Low));
  }

  /** The low-priority list is exactly the stale-device alerts; the high- and
      medium-priority lists are the generated alerts of that severity, in the
      order in which they were generated. `cutoff` and `staleCutoff` are the
      instants the trend period and the stale period reach back to. */
  lemma SeverityListsBySource(prefixes: seq<Prefix>, snapshots: seq<Snapshot>, devices: seq<Device>,
                              cutoff: int, staleCutoff: int, horizonDays: int, growthThreshold: real, now: int)
    ensures var generated := GeneratedAlerts(prefixes, snapshots, cutoff, horizonDays, growthThreshold, now);
            var all := InsertionSort(generated, SeverityKey) + StaleAlerts(devices, staleCutoff, now);
            && Filter(all, OfSeverity(Low)) == StaleAlerts(devices, staleCutoff, now)
            && Filter(all, OfSeverity(High)) == Filter(generated, OfSeverity(High))
            && Filter(all, OfSeverity(Medium)) == Filter(generated, OfSeverity(Medium))
  {
    var generated := GeneratedAlerts(prefixes, snapshots, cutoff, horizonDays, growthThreshold, now);
    var stale := StaleAlerts(devices, staleCutoff, now);
    StaleAllLow(devices, staleCutoff, now);
    GeneratedNeverLow(prefixes, snapshots, cutoff, horizonDays, growthThreshold, now);
    OnlyStaleLow(generated, stale);
    GeneratedOfSeverity(generated, stale, High);
    GeneratedOfSeverity(generated, stale, Medium);
  }

  // --------------------------------------------------------------- context

  /** The summary of a combined alert list: every count is taken over the
      full lists, while the lists shown are cut to 10 high, 10 medium and
      5 low alerts. */
  method Summarize(allAlerts: seq<Alert>, trendPeriodDays: int, forecastHorizonDays: int)
    returns (ctx: AlertSummary)
    ensures ctx.totalAlerts == |allAlerts|
    ensures ctx.highCount == Count(allAlerts, OfSeverity(High))
    ensures ctx.mediumCount == Count(allAlerts, OfSeverity(Medium))
    ensures ctx.lowCount == Count(allAlerts, OfSeverity(Low))
    ensures ctx.highCount + ctx.mediumCount + ctx.lowCount == ctx.totalAlerts
    ensures ctx.highAlerts == Take(Filter(allAlerts, OfSeverity(High)), 10)
    ensures ctx.mediumAlerts == Take(Filter(allAlerts, OfSeverity(Medium)), 10)
    ensures ctx.lowAlerts == Take(Filter(allAlerts, OfSeverity(Low)), 5)
    ensures ctx.alertTypes == TypeTally(allAlerts)
    ensures SumValues(ctx.alertTypes) == ctx.totalAlerts
    ensures ctx.trendPeriodDays == trendPeriodDays && ctx.forecastHorizonDays == forecastHorizonDays
  {
    var highPriority := Filter(allAlerts, OfSeverity(High));
    var mediumPriority := Filter(allAlerts, OfSeverity(Medium));
    var lowPriority := Filter(allAlerts, OfSeverity(Low));
    var alertTypes := CountAlertTypes(allAlerts);
    SeverityPartition(allAlerts);
    TypeTallySum(allAlerts);
    ctx := AlertSummary(
      |allAlerts|, |highPriority|, |mediumPriority|, |lowPriority|,
      Take(highPriority, 10), Take(mediumPriority, 10), Take(lowPriority, 5),
      alertTypes, trendPeriodDays, forecastHorizonDays);
  }

  /** `alerts + stale_alerts`. */
  method CombineAlerts(prefixes: seq<Prefix>, snapshots: seq<Snapshot>, devices: seq<Device>,
                       trendPeriodDays: int, forecastHorizonDays: int, growthThreshold: real,
                       staleDays: int, now: int)
    returns (allAlerts: seq<Alert>)
    ensures allAlerts == AllAlerts(prefixes, snapshots, devices, trendPeriodDays, forecastHorizonDays,
                                   growthThreshold, staleDays, now)
  {
    var alerts := GetPredictiveAlerts(prefixes, snapshots, trendPeriodDays, forecastHorizonDays, growthThreshold, now);
    var staleAlerts := DetectStaleDevices(devices, staleDays, now);
    allAlerts := alerts + staleAlerts;
  }

  /** `get_context_data`: the predictive alerts followed by the stale-device
      alerts, under the configured (or default) periods and threshold. */
  method PredictiveMaintenanceContext(config: MaintenanceConfig, prefixes: seq<Prefix>, snapshots: seq<Snapshot>,
                                      devices: seq<Device>, now: int)
    returns (ctx: AlertSummary, allAlerts: seq<Alert>)
    ensures allAlerts == AllAlerts(prefixes, snapshots, devices, config.TrendPeriodDays(),
                                   config.ForecastHorizonDays(), config.GrowthThreshold(), config.StaleDays(), now)
    ensures ctx.totalAlerts == |allAlerts|
    ensures ctx.highCount == Count(allAlerts, OfSeverity(High))
    ensures ctx.mediumCount == Count(allAlerts, OfSeverity(Medium))
    ensures ctx.lowCount == Count(allAlerts, OfSeverity(Low))
    ensures ctx.highAlerts == Take(Filter(allAlerts, OfSeverity(High)), 10)
    ensures ctx.mediumAlerts == Take(Filter(allAlerts, OfSeverity(Medium)), 10)
    ensures ctx.lowAlerts == Take(Filter(allAlerts, OfSeverity(Low)), 5)
    ensures ctx.highCount + ctx.mediumCount + ctx.lowCount == ctx.totalAlerts
    ensures ctx.alertTypes == TypeTally(allAlerts) && SumValues(ctx.alertTypes) == ctx.totalAlerts
    ensures ctx.trendPeriodDays == config.TrendPeriodDays()
    ensures ctx.forecastHorizonDays == config.ForecastHorizonDays()
  {
    var trendPeriodDays := config.TrendPeriodDays();
    var forecastHorizonDays := config.ForecastHorizonDays();
    allAlerts := CombineAlerts(prefixes, snapshots, devices, trendPeriodDays, forecastHorizonDays,
                               config.GrowthThreshold(), config.StaleDays(), now);
    ctx := Summarize(allAlerts, trendPeriodDays, forecastHorizonDays);
  }
}
