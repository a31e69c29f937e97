# NetBox Insights Dashboard — a verified model of the analytics core

This project models the analytics core of the NetBox Insights Dashboard plugin in Dafny. The core is the set of rules that sit between the ORM queries and the dashboard: it counts, classifies, partitions, aggregates, forecasts and caches. Each queryset is modelled as an input sequence of plain records (`Inventory`). The clock is a `now` parameter in integer seconds. Numbers are exact `real`s.

The model has one Dafny module per core source file:

| module | source file | form |
|---|---|---|
| `Predictions` (with `Statistics`, `Sorting`) | `utils/predictions.py` | mixed. The growth rate sorts the caller's list in place, using an array and an insertion sort. The regression sums are functions. The alert loops are methods proved against specification functions. |
| `Calculations` | `utils/calculations.py` | pure branches. The summary and VLAN loops are methods, and each sorts through `Sorting.SortList`. |
| `DeviceHealth` | `widgets/device_health.py` | imperative. The score and issue list are updated check by check, and the buckets are appended in a loop. |
| `Validators` | `utils/validators.py` | imperative. It walks dotted paths, appends issue lists and counts compliant devices. It models cable validation and recommendations. |
| `Topology` | `widgets/topology_status.py` | mixed. The cable, interface and connectivity loops are methods with nested loops; the health classification is pure. |
| `Capacity` | `widgets/capacity_planning.py` | mixed. It groups racks by site in a dictionary (`map` plus key order) and sorts in place; growth and forecast are functions. |
| `PredictiveMaintenance` | `widgets/predictive_maintenance.py` | mixed. It concatenates alerts, filters them by severity, and counts types in a dictionary loop. |
| `DataQuality` | `widgets/data_quality.py` | pure status bands, truncation and context. |
| `Cache` | `utils/cache.py` | mixed. The key builder is pure; the wrapper and invalidation work on a `class WidgetCache` whose `entries` map is the cache backend. |
| `Widgets` | `widgets/base.py` | mixed. `class Registry` holds the slug-keyed registry (a `map` plus the dictionary's insertion order); config lookups and `render` are functions. |

`Common` holds the shared vocabulary:
- `Option` and `Result`;
- list comprehensions (`Filter`, `Collect`, `Count`, `MapList`, `Take`);
- Python's `round` as exact half-even rounding (`Round1`, `Round2`);
- `int()` as truncation (`Trunc`);
- dictionary sums.

`Sorting` is the stable sort that `list.sort` performs. Its function `InsertionSort` is proved sorted, a permutation and stable. The in-place method `SortInPlace` is proved to compute it.

Behaviour that the code has and that the model keeps:
- `calculate_subnet_exhaustion_date` reads `available_ips` before it tests the rate. The error record returned for a failed prefix has no such key, so the call raises `KeyError`. `Calculations.SubnetExhaustionDate` returns `Err` in that case. It also returns `Err` where `timedelta(weeks=…)` or the addition to `datetime.now()` raises `OverflowError`: past 999999999 days, or outside the `datetime` range, which the model takes as a `DatetimeRange` parameter.
- `calculate_data_quality_score` returns only a score when there are no devices. See Findings.
- `analyze_ipam_trends` initialises the weeks to 0 rather than `None`, so the `> 0` tests never compare `None`. The projections are present exactly when the rate is positive and the mark is still ahead.
- `get_all_widgets` lists the classes in dictionary order. In that order a re-registered slug keeps its place.

## Model

| member | source | states |
|---|---|---|
| Validators.Split | netbox-insights-dashboard-plugin/netbox_insights_dashboard_plugin/utils/validators.py:25 | `str.split`: at least one piece, and no piece contains the separator |
| Validators.SplitJoin | netbox-insights-dashboard-plugin/netbox_insights_dashboard_plugin/utils/validators.py:25 | joining the pieces gives the field back, so the path walk loses nothing |
| Validators.SplitWithoutSeparator | netbox-insights-dashboard-plugin/netbox_insights_dashboard_plugin/utils/validators.py:25-26 | a field without a dot is a path of one step |
| Validators.WalkStaysNull | netbox-insights-dashboard-plugin/netbox_insights_dashboard_plugin/utils/validators.py:27-30 | once the walk reaches None it stays None, so breaking at the first None changes nothing |
| Validators.TwoStepField | netbox-insights-dashboard-plugin/netbox_insights_dashboard_plugin/utils/validators.py:25-36 | `a.b` is missing exactly when `b` of `a` is None; an empty string at the end counts as present |
| Validators.WalkPath | netbox-insights-dashboard-plugin/netbox_insights_dashboard_plugin/utils/validators.py:26-32 | the loop over the path parts decides "missing" exactly as the walk specification does |
| Validators.CheckField | netbox-insights-dashboard-plugin/netbox_insights_dashboard_plugin/utils/validators.py:24-36 | one required field, dotted or plain, is reported missing exactly when the specification says it is |
| Validators.MissingFieldsExact | netbox-insights-dashboard-plugin/netbox_insights_dashboard_plugin/utils/validators.py:21-38 | every reported field is a missing required field, and every missing required field is reported |
| Validators.ValidateDeviceCompleteness | netbox-insights-dashboard-plugin/netbox_insights_dashboard_plugin/utils/validators.py:10-38 | the missing fields in required order, and `is_valid` exactly when there are none |
| Validators.DuplicateKeysExact | netbox-insights-dashboard-plugin/netbox_insights_dashboard_plugin/utils/validators.py:143-170 | a key is reported iff more than one element carries it, and no key is reported twice |
| Validators.DuplicateSerialsExact | netbox-insights-dashboard-plugin/netbox_insights_dashboard_plugin/utils/validators.py:143-153 | a serial has a group iff it is non-empty and shared by more than one device; the group lists every such device, and its count is that list's length |
| Validators.EmptySerialNeverKey | netbox-insights-dashboard-plugin/netbox_insights_dashboard_plugin/utils/validators.py:144-145 | no device is grouped under the empty serial |
| Validators.DuplicateMacsExact | netbox-insights-dashboard-plugin/netbox_insights_dashboard_plugin/utils/validators.py:156-170 | an address has a group iff more than one interface carries it; the group lists every such interface |
| Validators.CheckDevice | netbox-insights-dashboard-plugin/netbox_insights_dashboard_plugin/utils/validators.py:99-140 | one device of the scoring loop: its compliance verdict and its entry in each per-device issue list, as specified |
| Validators.CalculateDataQualityScore | netbox-insights-dashboard-plugin/netbox_insights_dashboard_plugin/utils/validators.py:58-193 | no devices scores 100 with no report. Otherwise: the compliant count; non-compliant is total minus compliant; the score is the rounded percentage; the issue lists; total issues is the sum of the six list lengths; each detail count is its list's length |
| Validators.ScoreBounds | netbox-insights-dashboard-plugin/netbox_insights_dashboard_plugin/utils/validators.py:173 | the score lies in [0, 100], and a fully compliant inventory scores 100 |
| Validators.NonCompliantIffListed | netbox-insights-dashboard-plugin/netbox_insights_dashboard_plugin/utils/validators.py:99-140 | a device is non-compliant exactly when it adds an entry to at least one per-device issue list |
| Validators.IssuesCoverNonCompliant | netbox-insights-dashboard-plugin/netbox_insights_dashboard_plugin/utils/validators.py:176-182 | total issues is never below the number of non-compliant devices |
| Validators.CableIssues | netbox-insights-dashboard-plugin/netbox_insights_dashboard_plugin/utils/validators.py:209-220 | each of the three problems is listed iff its check fails, in the order A side, B side, type |
| Validators.CableLabel | netbox-insights-dashboard-plugin/netbox_insights_dashboard_plugin/utils/validators.py:225 | the label shown for an invalid cable is never empty |
| Validators.CheckCable | netbox-insights-dashboard-plugin/netbox_insights_dashboard_plugin/utils/validators.py:208-227 | the loop body gives the cable's invalid entry exactly as specified |
| Validators.InvalidEntryExact | netbox-insights-dashboard-plugin/netbox_insights_dashboard_plugin/utils/validators.py:209-227 | a cable gets an entry iff some check fails, and the entry lists exactly its failed checks |
| Validators.ValidateCableConnections | netbox-insights-dashboard-plugin/netbox_insights_dashboard_plugin/utils/validators.py:196-237 | the total, valid and invalid counts; the invalid entries capped at 50; `validation_passed` iff every cable is valid |
| Validators.CableCounts | netbox-insights-dashboard-plugin/netbox_insights_dashboard_plugin/utils/validators.py:229-236 | one entry per invalid cable; valid plus invalid is the total; no invalid cable iff all are valid |
| Validators.GetDataQualityRecommendations | netbox-insights-dashboard-plugin/netbox_insights_dashboard_plugin/utils/validators.py:240-295 | the loop emits exactly the specified recommendation list |
| Validators.RecommendationsExact | netbox-insights-dashboard-plugin/netbox_insights_dashboard_plugin/utils/validators.py:255-293 | a recommendation of a kind is present iff its count is positive, and it carries its kind's priority, category and count |
| Validators.RecommendationsOrdered | netbox-insights-dashboard-plugin/netbox_insights_dashboard_plugin/utils/validators.py:255-293 | recommendations come in the fixed order no-IP, no-interfaces, duplicate serials, each at most once |
| Validators.RecommendationMatchesReport | netbox-insights-dashboard-plugin/netbox_insights_dashboard_plugin/utils/validators.py:280-293 | the duplicate-serial recommendation counts the same groups the quality report lists |
| Calculations.StatusOf | netbox-insights-dashboard-plugin/netbox_insights_dashboard_plugin/utils/calculations.py:40-51 | a successful computation never has the error status |
| Calculations.StatusBands | netbox-insights-dashboard-plugin/netbox_insights_dashboard_plugin/utils/calculations.py:40-51 | exactly one band applies: critical from 95, danger from 90, warning from 75, healthy below |
| Calculations.StatusMonotone | netbox-insights-dashboard-plugin/netbox_insights_dashboard_plugin/utils/calculations.py:40-51 | a higher utilisation never gets a healthier band |
| Calculations.PrefixUtilization | netbox-insights-dashboard-plugin/netbox_insights_dashboard_plugin/utils/calculations.py:11-75 | on success: the counts, available = total − used, a utilisation within 0.005 of used/total·100 (0 when total is 0), and the band of the unrounded value. On failure: the error, utilisation 0 and the error status |
| Calculations.UtilizationWithinPercent | netbox-insights-dashboard-plugin/netbox_insights_dashboard_plugin/utils/calculations.py:31-37 | a prefix holding no more addresses than it has reports a utilisation within [0, 100] |
| Calculations.Selected | netbox-insights-dashboard-plugin/netbox_insights_dashboard_plugin/utils/calculations.py:97-103 | a prefix is kept iff it is active and passes the site and role filters that are set (an unset, 0 or empty filter passes everything); never more prefixes than the input |
| Calculations.Utilizations | netbox-insights-dashboard-plugin/netbox_insights_dashboard_plugin/utils/calculations.py:112-114 | one entry per prefix, in order, entry i being the utilisation record of prefix i |
| Calculations.BucketPrecedence | netbox-insights-dashboard-plugin/netbox_insights_dashboard_plugin/utils/calculations.py:116-123 | critical iff at or above the critical threshold; warning iff at or above the warning threshold and below critical; healthy otherwise |
| Calculations.BucketCountsAddUp | netbox-insights-dashboard-plugin/netbox_insights_dashboard_plugin/utils/calculations.py:112-123 | every entry is counted in exactly one bucket, so the three counts sum to the total |
| Calculations.BucketCountStep | netbox-insights-dashboard-plugin/netbox_insights_dashboard_plugin/utils/calculations.py:116-123 | one more entry adds one to its own bucket only |
| Calculations.IpamUtilizationSummary | netbox-insights-dashboard-plugin/netbox_insights_dashboard_plugin/utils/calculations.py:78-137 | the counts are the bucket counts of the computed entries and sum to the total; the thresholds are passed through; the list is the stable descending sort of the entries |
| Calculations.SummaryOrder | netbox-insights-dashboard-plugin/netbox_insights_dashboard_plugin/utils/calculations.py:126 | the summary list is sorted by utilisation, highest first, is a permutation of the entries, and keeps database order among equal utilisations |
| Calculations.UsedVlans | netbox-insights-dashboard-plugin/netbox_insights_dashboard_plugin/utils/calculations.py:155-160 | the used VLANs are some of the site's VLANs |
| Calculations.UsedVlansCounted | netbox-insights-dashboard-plugin/netbox_insights_dashboard_plugin/utils/calculations.py:155-160 | the used VLANs are exactly those with a positive interface count: none used iff no VLAN has an interface, all used iff every VLAN has one |
| Calculations.VlanEntries | netbox-insights-dashboard-plugin/netbox_insights_dashboard_plugin/utils/calculations.py:144-170 | never more rows than sites |
| Calculations.VlanEntriesFromSites | netbox-insights-dashboard-plugin/netbox_insights_dashboard_plugin/utils/calculations.py:150-170 | every row is the usage row of some site that has VLANs |
| Calculations.VlanEntriesShape | netbox-insights-dashboard-plugin/netbox_insights_dashboard_plugin/utils/calculations.py:153-170 | every row is well formed (available = total − used, utilisation within [0, 100]), and every site with VLANs has a row |
| Calculations.VlanUtilization | netbox-insights-dashboard-plugin/netbox_insights_dashboard_plugin/utils/calculations.py:140-175 | the rows stably sorted by utilisation, highest first: sorted, a permutation, every row well formed |
| Calculations.SubnetExhaustionDate | netbox-insights-dashboard-plugin/netbox_insights_dashboard_plugin/utils/calculations.py:176-201 | a failed prefix raises `KeyError`; a non-positive rate gives None; otherwise `now` plus available/rate weeks, and `OverflowError` iff that `timedelta` passes 999999999 days or the instant leaves the `datetime` range |
| Calculations.ExhaustionDateAntitone | netbox-insights-dashboard-plugin/netbox_insights_dashboard_plugin/utils/calculations.py:195-201 | with addresses left, a faster rate never overflows where a slower one does not, and never gives a later exhaustion instant |
| Calculations.SlowGrowthOverflows | netbox-insights-dashboard-plugin/netbox_insights_dashboard_plugin/utils/calculations.py:197-198 | 65534 free addresses at 0.1 per week (655340 weeks) overflow once the `datetime` range ends sooner |
| DeviceHealth.ApplyCheck | netbox-insights-dashboard-plugin/netbox_insights_dashboard_plugin/widgets/device_health.py:38-76 | one check keeps the invariant that the score is 100 minus the deductions of the issues listed so far |
| DeviceHealth.CalculateDeviceHealth | netbox-insights-dashboard-plugin/netbox_insights_dashboard_plugin/widgets/device_health.py:33-83 | the check-by-check method computes the specified health record |
| DeviceHealth.FailedChecksAsWritten | netbox-insights-dashboard-plugin/netbox_insights_dashboard_plugin/widgets/device_health.py:38-76 | the failed checks are the eight source conditions in source order |
| DeviceHealth.FailedChecksInOrder | netbox-insights-dashboard-plugin/netbox_insights_dashboard_plugin/widgets/device_health.py:38-76 | the issue list is the concatenation, in check order, of each check's flag |
| DeviceHealth.Max0 | netbox-insights-dashboard-plugin/netbox_insights_dashboard_plugin/widgets/device_health.py:80 | `max(0, score)` is non-negative, at least the score, and equal to one of them |
| DeviceHealth.IssuesAreFailedChecks | netbox-insights-dashboard-plugin/netbox_insights_dashboard_plugin/widgets/device_health.py:38-76 | an issue is listed iff its check fails |
| DeviceHealth.IssuesInCheckOrder | netbox-insights-dashboard-plugin/netbox_insights_dashboard_plugin/widgets/device_health.py:38-76 | the issues come in strict check order, each at most once |
| DeviceHealth.ScoreBounds | netbox-insights-dashboard-plugin/netbox_insights_dashboard_plugin/widgets/device_health.py:35-82 | the score lies in [0, 100] and is 100 minus the deductions of the listed issues (the floor never applies); healthy iff score ≥ 80 |
| DeviceHealth.PerfectDevice | netbox-insights-dashboard-plugin/netbox_insights_dashboard_plugin/widgets/device_health.py:35-82 | a device that passes every check scores 100, has no issues, and is healthy |
| DeviceHealth.HealthyBucketIsHealthy | netbox-insights-dashboard-plugin/netbox_insights_dashboard_plugin/widgets/device_health.py:102-109 | a device lands in the healthy bucket iff it is healthy |
| DeviceHealth.Healths | netbox-insights-dashboard-plugin/netbox_insights_dashboard_plugin/widgets/device_health.py:100-101 | one health record per active device |
| DeviceHealth.BucketsPartition | netbox-insights-dashboard-plugin/netbox_insights_dashboard_plugin/widgets/device_health.py:102-109 | every device is in exactly one bucket, so the bucket counts sum to the number of devices |
| DeviceHealth.CategorizeDevices | netbox-insights-dashboard-plugin/netbox_insights_dashboard_plugin/widgets/device_health.py:96-109 | the loop's three lists are the order-preserving filters of the health records by bucket |
| DeviceHealth.HealthContextData | netbox-insights-dashboard-plugin/netbox_insights_dashboard_plugin/widgets/device_health.py:86-152 | the bucket counts of the active devices, summing to the total; critical and warning lists cut to their first 10; overall health healthy/total·100 (100 with no devices), rounded, in [0, 100]; the stale and missing-attribute counts |
| Predictions.CalculateGrowthRate | netbox_insights_dashboard_plugin/utils/predictions.py:14-52 | the rate is the specified rate of the old contents; the caller's array is left sorted by time when it has two or more points, and untouched otherwise |
| Predictions.Regression | netbox_insights_dashboard_plugin/utils/predictions.py:30-52 | the loop-free sums over time-ordered points give the rounded weekly slope |
| Predictions.GrowthRateTooFewPoints | netbox_insights_dashboard_plugin/utils/predictions.py:24-25 | fewer than two points give rate 0 |
| Predictions.GrowthRateSameInstant | netbox_insights_dashboard_plugin/utils/predictions.py:41-44 | points that all share one instant give a zero denominator and rate 0 |
| Predictions.GrowthRateConstant | netbox_insights_dashboard_plugin/utils/predictions.py:36-52 | a constant series has rate 0 |
| Predictions.GrowthRateOfLine | netbox_insights_dashboard_plugin/utils/predictions.py:30-52 | points on an exact line a + b·days (two or more instants) give weekly growth 7b, whatever the line's anchor |
| Predictions.GrowthRateOrderIndependent | netbox_insights_dashboard_plugin/utils/predictions.py:28 | the rate depends only on which points there are, not on their order |
| Predictions.Window | netbox_insights_dashboard_plugin/utils/predictions.py:69-72 | the samples come in time order |
| Predictions.WindowExact | netbox_insights_dashboard_plugin/utils/predictions.py:69-84 | the window holds one sample per snapshot of the prefix taken since the cutoff (same multiset, same count), and a sample is in it iff such a snapshot gives it |
| Predictions.WeeksToThreshold | netbox_insights_dashboard_plugin/utils/predictions.py:93-103 | weeks to a mark are present iff the rate is positive and the mark is ahead, and then positive |
| Predictions.ThresholdReached | netbox_insights_dashboard_plugin/utils/predictions.py:97-98 | growing at the rate for the projected weeks reaches the mark exactly |
| Predictions.ProjectionMonotone | netbox_insights_dashboard_plugin/utils/predictions.py:96-98 | a higher mark is reached strictly later |
| Predictions.AnalyzeIpamTrends | netbox_insights_dashboard_plugin/utils/predictions.py:55-115 | "insufficient data" iff the window is empty |
| Predictions.TrendProjections | netbox_insights_dashboard_plugin/utils/predictions.py:93-112 | each projection is present iff rate > 0 and the current value is below its mark; the 90% date comes after `now` and before the 100% date |
| Predictions.ExhaustionReached | netbox_insights_dashboard_plugin/utils/predictions.py:153-157 | with a positive rate the weeks to exhaustion reach 100% exactly; otherwise the 999-week placeholder |
| Predictions.ExhaustionAlert | netbox_insights_dashboard_plugin/utils/predictions.py:147-175 | an alert iff rate ≥ threshold and the weeks fall within the horizon; severity high iff fewer than 4 weeks, otherwise medium |
| Predictions.ExhaustionWithinHorizon | netbox_insights_dashboard_plugin/utils/predictions.py:157-172 | an alert's estimated instant lies before the end of the horizon, and with a positive rate after `now` iff the prefix is not full |
| Predictions.AnomalyAlert | netbox_insights_dashboard_plugin/utils/predictions.py:178-206 | no alert with fewer than five points; an alert is always a medium anomaly for its prefix |
| Predictions.SquaredComparison | netbox_insights_dashboard_plugin/utils/predictions.py:189-191 | comparing squares is the same test as `abs(latest − mean) > 2·stdev` |
| Predictions.AnomalyFires | netbox_insights_dashboard_plugin/utils/predictions.py:184-191 | with five or more points, the alert fires iff `abs(latest − mean) > 2·sd` for the standard deviation `sd` |
| Predictions.AnomalyNeverOnConstant | netbox_insights_dashboard_plugin/utils/predictions.py:184-197 | a flat series is never flagged |
| Predictions.CheckExhaustion | netbox_insights_dashboard_plugin/utils/predictions.py:140-175 | the per-prefix exhaustion step as run computes the specified decision |
| Predictions.CollectExhaustion | netbox_insights_dashboard_plugin/utils/predictions.py:134-175 | the first alert loop yields the specified exhaustion alerts |
| Predictions.CollectAnomalies | netbox_insights_dashboard_plugin/utils/predictions.py:178-206 | the second alert loop yields the specified anomaly alerts |
| Predictions.GetPredictiveAlerts | netbox_insights_dashboard_plugin/utils/predictions.py:118-212 | the generated alerts, stably sorted by severity rank |
| Predictions.AlertOrder | netbox_insights_dashboard_plugin/utils/predictions.py:208-210 | the alert list is in severity order, a permutation of the generated alerts, and keeps generation order within each severity |
| Predictions.SeverityClass | netbox_insights_dashboard_plugin/utils/predictions.py:209 | the alerts of one rank are exactly those of its severity |
| Predictions.StaleAlertsAreStaleDevices | netbox_insights_dashboard_plugin/utils/predictions.py:226-247 | one low alert per active device last updated before the cutoff, in device order, counting whole days since the update |
| Predictions.StaleAlertsShape | netbox_insights_dashboard_plugin/utils/predictions.py:229-240 | every stale alert is low and names an active device updated before the cutoff |
| Predictions.DetectStaleDevices | netbox_insights_dashboard_plugin/utils/predictions.py:215-249 | the loop yields the specified stale alerts for the cutoff `stale_days` back |
| Statistics.DenominatorNonNegative | netbox_insights_dashboard_plugin/utils/predictions.py:41 | the regression denominator is never negative |
| Statistics.DenominatorZeroIff | netbox_insights_dashboard_plugin/utils/predictions.py:41-44 | the denominator is zero iff all points share one instant |
| Statistics.DenominatorPositive | netbox_insights_dashboard_plugin/utils/predictions.py:41-44 | two distinct instants give a positive denominator |
| Statistics.DenominatorOfSameInstant | netbox_insights_dashboard_plugin/utils/predictions.py:41-44 | a single instant gives a zero denominator |
| Statistics.MeanOfConstant | netbox_insights_dashboard_plugin/utils/predictions.py:36-38 | a constant series has that constant as mean |
| Statistics.NumeratorOfConstant | netbox_insights_dashboard_plugin/utils/predictions.py:40 | a constant series has a zero numerator |
| Statistics.VarianceOfConstant | netbox_insights_dashboard_plugin/utils/predictions.py:186-189 | a constant series has zero sample variance |
| Statistics.MeanOfLine | netbox_insights_dashboard_plugin/utils/predictions.py:36-38 | the mean value of points on a line is the line at the mean day |
| Statistics.NumeratorOfLine | netbox_insights_dashboard_plugin/utils/predictions.py:40-41 | on a line of slope b the numerator is b times the denominator |
| Statistics.SlopeOfLine | netbox_insights_dashboard_plugin/utils/predictions.py:46-50 | points on a line over two instants have weekly slope 7b |
| Statistics.SlopeOfConstant | netbox_insights_dashboard_plugin/utils/predictions.py:43-50 | a constant series has slope 0 |
| Statistics.SlopeOfPermutation | netbox_insights_dashboard_plugin/utils/predictions.py:36-50 | reordering the points leaves the slope unchanged |
| Statistics.SlopeOfAnyLine | netbox_insights_dashboard_plugin/utils/predictions.py:30-50 | the slope of a line is 7b whatever instant the days are counted from |
| Statistics.SumPermutation | netbox_insights_dashboard_plugin/utils/predictions.py:36-41 | sums over two orderings of the same points agree |
| Statistics.TotalPermutation | netbox_insights_dashboard_plugin/utils/predictions.py:36-41 | a sum of reals does not depend on the order of its terms |
| Statistics.LineReAnchored | netbox_insights_dashboard_plugin/utils/predictions.py:30-33 | a line in days since one instant is a line of the same slope in days since any other |
| Sorting.SortSorted | netbox_insights_dashboard_plugin/utils/predictions.py:210 | the sort's result is in key order |
| Sorting.SortPermutation | netbox_insights_dashboard_plugin/utils/predictions.py:210 | the sort's result is a permutation of its input |
| Sorting.SortStable | netbox_insights_dashboard_plugin/utils/predictions.py:210 | elements sharing a key keep their input order |
| Sorting.SortOfSorted | netbox_insights_dashboard_plugin/utils/predictions.py:28 | sorting a sorted list changes nothing |
| Sorting.SortSameElements | netbox_insights_dashboard_plugin/utils/predictions.py:28 | sorting neither adds nor drops an element |
| Sorting.SortFirstIsLeast | netbox_insights_dashboard_plugin/utils/predictions.py:28 | the first element after sorting carries the least key |
| Sorting.InsertAt | netbox_insights_dashboard_plugin/utils/predictions.py:28 | one in-place insertion step places `a[i]` into the sorted prefix and leaves the rest of the array as it was |
| Sorting.SortInPlace | netbox_insights_dashboard_plugin/utils/predictions.py:28 | the array ends up holding the stable sort of its old contents |
| Sorting.SortList | netbox-insights-dashboard-plugin/netbox_insights_dashboard_plugin/utils/calculations.py:126 | a local list sorted in place comes back as the stable sort of the list |
| Topology.GetCableHealth | netbox_insights_dashboard_plugin/widgets/topology_status.py:33-74 | valid iff both sides terminated and a type; valid + invalid = total; the first 10 invalid entries; the percentage within [0, 100] |
| Topology.CableHealthBounds | netbox_insights_dashboard_plugin/widgets/topology_status.py:73 | the health percentage is in [0, 100], and 100 when every cable is valid |
| Topology.StatusCountsRead | netbox_insights_dashboard_plugin/widgets/topology_status.py:81-92 | reading the grouped status rows gives the enabled and disabled counts |
| Topology.GetInterfaceStatus | netbox_insights_dashboard_plugin/widgets/topology_status.py:76-105 | total = enabled + disabled; disconnected = total − connected; utilisation is connected/total·100, 0 with no interfaces |
| Topology.EnabledSplit | netbox_insights_dashboard_plugin/widgets/topology_status.py:92 | enabled and disabled interfaces split the list |
| Topology.RemoteNamesExact | netbox_insights_dashboard_plugin/widgets/topology_status.py:129-132 | a site name is connected iff some far end lies on a device at a different site of that name |
| Topology.RemoteNamesBound | netbox_insights_dashboard_plugin/widgets/topology_status.py:129-132 | there are never more connected sites than inter-site links |
| Topology.CountRemoteEnds | netbox_insights_dashboard_plugin/widgets/topology_status.py:128-132 | the innermost loop adds the far ends of one cable to the link count and the name set |
| Topology.CountDeviceLinks | netbox_insights_dashboard_plugin/widgets/topology_status.py:125-132 | the middle loop adds every far end of the device's interfaces |
| Topology.SiteLinks | netbox_insights_dashboard_plugin/widgets/topology_status.py:120-132 | the outer loops give the link count and name set of all far ends at the site |
| Topology.ConnectivityOf | netbox_insights_dashboard_plugin/widgets/topology_status.py:113-142 | the loop body gives the site's specified entry |
| Topology.AnalyzeSiteConnectivity | netbox_insights_dashboard_plugin/widgets/topology_status.py:107-146 | the entries of the sites, stably sorted by inter-site links, most first |
| Topology.SiteConnectivityShape | netbox_insights_dashboard_plugin/widgets/topology_status.py:134-145 | a site is listed iff it has interfaces or links; connection count is the number of distinct remote sites, never above the links; the list is sorted most-links first and keeps site order among ties |
| Topology.StatusBands | netbox_insights_dashboard_plugin/widgets/topology_status.py:193-203 | healthy from 90, warning from 70, critical below |
| Topology.StatusMonotone | netbox_insights_dashboard_plugin/widgets/topology_status.py:193-203 | a better overall health never gets a worse status |
| Topology.Classify | netbox_insights_dashboard_plugin/widgets/topology_status.py:190-203 | overall health is the mean of the two percentages, rounded for display and classified unrounded, within [0, 100] |
| Topology.TopologyContextData | netbox_insights_dashboard_plugin/widgets/topology_status.py:171-214 | the cable report (total, valid and invalid counts, first 10 invalid entries, percentage) and the interface counts (total, enabled, disabled, connected, disconnected, utilisation) of the devices' interfaces; the overall health in [0, 100] and its status; the first 15 sites of the sorted connectivity list |
| Capacity.PerWeekRate | netbox_insights_dashboard_plugin/widgets/capacity_planning.py:44-46 | the weekly rate times the window is 7 × new; no days gives 0; never negative |
| Capacity.GrowthBounds | netbox_insights_dashboard_plugin/widgets/capacity_planning.py:35-77 | new ≤ total; the weekly rate is not negative; the growth rate is in [0, 100], and 0 when there is nothing |
| Capacity.AllNew | netbox_insights_dashboard_plugin/widgets/capacity_planning.py:40-63 | when everything was created inside the window, the growth rate is 100% |
| Capacity.WiderWindow | netbox_insights_dashboard_plugin/widgets/capacity_planning.py:40-43 | a longer window counts at least as many new objects |
| Capacity.ForecastAddsGrowth | netbox_insights_dashboard_plugin/widgets/capacity_planning.py:126-145 | the truncated growth is non-negative, and the forecast is exactly the current count plus it |
| Capacity.ForecastOfMetrics | netbox_insights_dashboard_plugin/widgets/capacity_planning.py:124-157 | every forecast line adds its growth to its current count |
| Capacity.RowsFor | netbox_insights_dashboard_plugin/widgets/capacity_planning.py:108-118 | one row per listed site name, in order, each the usage of that site's tally |
| Capacity.AddRackDevices | netbox_insights_dashboard_plugin/widgets/capacity_planning.py:101-106 | the inner loop adds the heights of the rack's devices to the site's used space |
| Capacity.CountRack | netbox_insights_dashboard_plugin/widgets/capacity_planning.py:94-106 | one rack is counted for its site, and its U-space and device heights only when its height is non-zero |
| Capacity.GroupBySite | netbox_insights_dashboard_plugin/widgets/capacity_planning.py:84-106 | the dictionary holds exactly one tally per site name seen, keyed in first-occurrence order, each equal to the direct tally of that site |
| Capacity.FinishRow | netbox_insights_dashboard_plugin/widgets/capacity_planning.py:110-117 | one site's rounded utilisation and free space, as specified |
| Capacity.FinishRows | netbox_insights_dashboard_plugin/widgets/capacity_planning.py:108-118 | the loop over the dictionary values yields the specified rows in key order |
| Capacity.CalculateRackUtilization | netbox_insights_dashboard_plugin/widgets/capacity_planning.py:79-122 | the method computes the specified sorted site rows |
| Capacity.WeightByName | netbox_insights_dashboard_plugin/widgets/capacity_planning.py:84-96 | grouping by site name neither loses nor repeats a rack |
| Capacity.RackUtilizationShape | netbox_insights_dashboard_plugin/widgets/capacity_planning.py:84-121 | sorted by utilisation, highest first; a permutation of one row per site name; `total_racks` sums to the number of racks, and total U to the racks' heights |
| Capacity.SiteListed | netbox_insights_dashboard_plugin/widgets/capacity_planning.py:86-93 | a site name has a row iff some rack carries it ('No Site' for site-less racks) |
| Capacity.RowsAreTallies | netbox_insights_dashboard_plugin/widgets/capacity_planning.py:108-121 | every row is the tally of its own site name |
| Capacity.EverySiteHasRow | netbox_insights_dashboard_plugin/widgets/capacity_planning.py:108-121 | every site name carried by a rack has its row |
| Capacity.UtilizationOfSite | netbox_insights_dashboard_plugin/widgets/capacity_planning.py:111-117 | 0 without U-space; otherwise within 0.05 of used/total·100, and within [0, 100] when used ≤ total |
| Capacity.NearCapacityIsPrefix | netbox_insights_dashboard_plugin/widgets/capacity_planning.py:177-180 | on the sorted list the sites near capacity are a leading run |
| Capacity.NearCapacityExact | netbox_insights_dashboard_plugin/widgets/capacity_planning.py:177-180 | exactly the sites at or above the threshold are listed, in their order |
| Capacity.CapacityContextData | netbox_insights_dashboard_plugin/widgets/capacity_planning.py:160-190 | growth over 30 days and the configured period; top 10 sites; every site at or above the threshold; the 6-month forecast, whose device line adds its growth to the device count |
| PredictiveMaintenance.TypeTallyCounts | netbox_insights_dashboard_plugin/widgets/predictive_maintenance.py:62-65 | a type is a key iff some alert has it, and maps to the number of such alerts |
| PredictiveMaintenance.TypeTallySum | netbox_insights_dashboard_plugin/widgets/predictive_maintenance.py:62-65 | the type counts add up to the number of alerts |
| PredictiveMaintenance.TypeTallyKeys | netbox_insights_dashboard_plugin/widgets/predictive_maintenance.py:64 | only the three emitted types occur, so 'unknown' is never counted |
| PredictiveMaintenance.CountAlertTypes | netbox_insights_dashboard_plugin/widgets/predictive_maintenance.py:62-65 | the dictionary loop computes the specified tally |
| PredictiveMaintenance.SeverityPartition | netbox_insights_dashboard_plugin/widgets/predictive_maintenance.py:57-59 | the three severity counts add up to the total |
| PredictiveMaintenance.StaleAllLow | netbox_insights_dashboard_plugin/utils/predictions.py:229-240 | stale-device alerts are all low |
| PredictiveMaintenance.ExhaustionNeverLow | netbox_insights_dashboard_plugin/utils/predictions.py:161-175 | exhaustion alerts are never low |
| PredictiveMaintenance.AnomalyNeverLow | netbox_insights_dashboard_plugin/utils/predictions.py:193-206 | anomaly alerts are never low |
| PredictiveMaintenance.GeneratedNeverLow | netbox_insights_dashboard_plugin/utils/predictions.py:134-206 | the generated alerts hold no low alert |
| PredictiveMaintenance.GeneratedOfSeverity | netbox_insights_dashboard_plugin/widgets/predictive_maintenance.py:54-58 | appending low alerts leaves the high and medium lists as the generated alerts of that severity, in generation order |
| PredictiveMaintenance.OnlyStaleLow | netbox_insights_dashboard_plugin/widgets/predictive_maintenance.py:54-59 | the low list is exactly the appended low alerts |
| PredictiveMaintenance.SeverityListsBySource | netbox_insights_dashboard_plugin/widgets/predictive_maintenance.py:44-59 | the low list is exactly the stale-device alerts; high and medium are the generated alerts of that severity in generation order |
| PredictiveMaintenance.Summarize | netbox_insights_dashboard_plugin/widgets/predictive_maintenance.py:57-79 | counts over the full lists summing to the total; lists cut to 10 high, 10 medium, 5 low; type counts summing to the total |
| PredictiveMaintenance.CombineAlerts | netbox_insights_dashboard_plugin/widgets/predictive_maintenance.py:44-54 | the predictive alerts followed by the stale alerts |
| PredictiveMaintenance.PredictiveMaintenanceContext | netbox_insights_dashboard_plugin/widgets/predictive_maintenance.py:35-79 | under the configured or default settings: the combined alerts; each severity count taken over the full list, the three summing to the total; the severity lists cut to 10/10/5; and the type tally |
| DataQuality.StatusOf | netbox-insights-dashboard-plugin/netbox_insights_dashboard_plugin/widgets/data_quality.py:56-65 | healthy iff score ≥ minimum; warning iff 60 ≤ score < minimum; critical iff below both |
| DataQuality.StatusMonotone | netbox-insights-dashboard-plugin/netbox_insights_dashboard_plugin/widgets/data_quality.py:56-65 | a higher score never gets a worse status; with a minimum at or below 60 there is no warning |
| DataQuality.IssueSummary | netbox-insights-dashboard-plugin/netbox_insights_dashboard_plugin/widgets/data_quality.py:68-75 | each list shown is a prefix of its category, of length min(cap, size) with caps 10/10/5/5/10/10 |
| DataQuality.SummaryIdempotent | netbox-insights-dashboard-plugin/netbox_insights_dashboard_plugin/widgets/data_quality.py:68-75 | summarising twice shows the same as summarising once |
| DataQuality.ContextAsWritten | netbox-insights-dashboard-plugin/netbox_insights_dashboard_plugin/widgets/data_quality.py:68-91 | building the context fails exactly when the report has no issue lists |
| DataQuality.EmptyInventoryRaises | netbox-insights-dashboard-plugin/netbox_insights_dashboard_plugin/widgets/data_quality.py:69 | the report of an empty inventory cannot be turned into a context as written |
| DataQuality.ContextOf | netbox-insights-dashboard-plugin/netbox_insights_dashboard_plugin/widgets/data_quality.py:56-91 | score, counts, total issues and details passed through; status from the score; issue lists capped; recommendations cut to 5; an empty report reads as no devices and no issues |
| DataQuality.CorrectedAgrees | netbox-insights-dashboard-plugin/netbox_insights_dashboard_plugin/widgets/data_quality.py:77-91 | wherever the code as written succeeds, the corrected context is the one it builds |
| DataQuality.ShownWithinCounts | netbox-insights-dashboard-plugin/netbox_insights_dashboard_plugin/widgets/data_quality.py:68-86 | each shown list has min(cap, reported count) entries |
| DataQuality.DataQualityContextAsWritten | netbox-insights-dashboard-plugin/netbox_insights_dashboard_plugin/widgets/data_quality.py:36-91 | the widget as written fails iff there are no devices |
| DataQuality.DataQualityContextData | netbox-insights-dashboard-plugin/netbox_insights_dashboard_plugin/widgets/data_quality.py:36-91 | device counts; the score in [0, 100] and its status; capped issue lists, the total issues and the per-category counts (none for an empty inventory); the cable report's total, valid and invalid counts, first 50 invalid entries and `validation_passed`; the first 5 recommendations |
| Cache.LessTransitive | netbox_insights_dashboard_plugin/utils/cache.py:24 | string order is transitive |
| Cache.LessTotal | netbox_insights_dashboard_plugin/utils/cache.py:24 | string order is total |
| Cache.LessIrreflexive | netbox_insights_dashboard_plugin/utils/cache.py:24 | string order is strict |
| Cache.SortItems | netbox_insights_dashboard_plugin/utils/cache.py:24 | `sorted(kwargs.items())` is a permutation of the items |
| Cache.SortItemsSorted | netbox_insights_dashboard_plugin/utils/cache.py:24 | the sorted items are in order |
| Cache.SortedUnique | netbox_insights_dashboard_plugin/utils/cache.py:24 | two sorted lists of the same items are the same list |
| Cache.JoinFront | netbox_insights_dashboard_plugin/utils/cache.py:25 | joining puts a colon after every part but the last |
| Cache.JoinContains | netbox_insights_dashboard_plugin/utils/cache.py:25 | every part occurs in the joined string |
| Cache.KeyHoldsEveryPart | netbox_insights_dashboard_plugin/utils/cache.py:22-25 | the key holds the prefix, every positional argument, and every keyword argument as `name:value` |
| Cache.ExampleKey | tests/test_netbox_insights_dashboard_plugin.py:59-63 | the key of the test's call is `test:arg1:arg2:kwarg1:value1` |
| Cache.KeyOrderIndependent | netbox_insights_dashboard_plugin/utils/cache.py:24-25 | the key does not depend on the order keyword arguments were supplied in |
| Cache.KeyShape | netbox_insights_dashboard_plugin/utils/cache.py:22-25 | without arguments the key is the prefix; with any, it starts with the prefix and a colon |
| Cache.CachedCall | netbox_insights_dashboard_plugin/utils/cache.py:42-62 | disabled: call and leave the cache alone. A non-None hit: served without a call. Otherwise: call, store under the key, and return the result. Other keys are never touched |
| Cache.SecondCallHits | netbox_insights_dashboard_plugin/utils/cache.py:54-62 | after a stored non-None result, the next call under that key is a hit with that result |
| Cache.NoneIsRecomputed | netbox_insights_dashboard_plugin/utils/cache.py:55-60 | a stored None is never served; the next call runs the function again |
| Cache.Invalidated | netbox_insights_dashboard_plugin/utils/cache.py:75-81 | only the entry `insights:pattern` goes; every other entry stays with its value |
| Cache.InvalidatedMisses | netbox_insights_dashboard_plugin/utils/cache.py:51-79 | after invalidation, a call under the invalidated key runs the function |
| Cache.InvalidateReachesBareCallsOnly | netbox_insights_dashboard_plugin/utils/cache.py:51-78 | `invalidate_cache(name)` removes the wrapper's key for `name` iff the call had no arguments |
| Cache.WidgetCache.Call | netbox_insights_dashboard_plugin/utils/cache.py:40-62 | the wrapper's new cache and result are the specified decision under the call's key |
| Cache.WidgetCache.Invalidate | netbox_insights_dashboard_plugin/utils/cache.py:68-81 | the cache after `invalidate_cache` is the specified one, without failing |
| Widgets.Enrolled | netbox-insights-dashboard-plugin/netbox_insights_dashboard_plugin/widgets/base.py:21 | dictionary key order after an assignment: a new slug goes last, a known one keeps its place |
| Widgets.EnrolledNoDuplicates | netbox-insights-dashboard-plugin/netbox_insights_dashboard_plugin/widgets/base.py:21 | registration keeps the slugs free of duplicates |
| Widgets.Values | netbox-insights-dashboard-plugin/netbox_insights_dashboard_plugin/widgets/base.py:27 | `list(values())`: one class per slug, in slug order |
| Widgets.RegisterNewAppends | netbox-insights-dashboard-plugin/netbox_insights_dashboard_plugin/widgets/base.py:21-27 | registering a new slug lists its class after all earlier ones |
| Widgets.RegisterKnownReplaces | netbox-insights-dashboard-plugin/netbox_insights_dashboard_plugin/widgets/base.py:21-27 | re-registering a slug replaces its class in place and leaves every other listed class as it was |
| Widgets.RegisteredIsListed | netbox-insights-dashboard-plugin/netbox_insights_dashboard_plugin/widgets/base.py:21-27 | after registration the class is listed |
| Widgets.Registry.Register | netbox-insights-dashboard-plugin/netbox_insights_dashboard_plugin/widgets/base.py:12-22 | stores the class under its slug, replacing any earlier one, leaves other entries alone, and returns the class |
| Widgets.Registry.GetWidget | netbox-insights-dashboard-plugin/netbox_insights_dashboard_plugin/widgets/base.py:30-32 | the registered class iff the slug is registered, else None |
| Widgets.Registry.AllWidgets | netbox-insights-dashboard-plugin/netbox_insights_dashboard_plugin/widgets/base.py:25-27 | exactly the registry's values: one entry per slug, each a registered class, every registered class present |
| Widgets.SettingsFor | netbox-insights-dashboard-plugin/netbox_insights_dashboard_plugin/widgets/base.py:104-115 | the widget's settings, or none when either lookup level is missing |
| Widgets.IsEnabled | netbox-insights-dashboard-plugin/netbox_insights_dashboard_plugin/widgets/base.py:97-105 | disabled iff the widget's settings say `enabled: False` |
| Widgets.RefreshInterval | netbox-insights-dashboard-plugin/netbox_insights_dashboard_plugin/widgets/base.py:107-116 | the configured interval, else the class's own |
| Widgets.UnconfiguredDefaults | netbox-insights-dashboard-plugin/netbox_insights_dashboard_plugin/widgets/base.py:104-116 | a widget the config does not mention is enabled with its class's interval, whatever other widgets are configured |
| Widgets.TemplateName | netbox-insights-dashboard-plugin/netbox_insights_dashboard_plugin/widgets/base.py:88-95 | the class's template if set, else the path derived from the slug |
| Widgets.DerivedTemplateInjective | netbox-insights-dashboard-plugin/netbox_insights_dashboard_plugin/widgets/base.py:95 | two widgets without their own template share a template iff they share a slug |
| Widgets.DisplayName | netbox-insights-dashboard-plugin/netbox_insights_dashboard_plugin/widgets/base.py:137-138 | the name if it is set, else the slug |
| Widgets.Render | netbox-insights-dashboard-plugin/netbox_insights_dashboard_plugin/widgets/base.py:118-135 | the metadata, template, interval and enabled flag; an empty context iff disabled, otherwise the widget's data |
| Widgets.DisabledHidesData | netbox-insights-dashboard-plugin/netbox_insights_dashboard_plugin/widgets/base.py:134 | a disabled widget's rendering does not depend on its data |

## Left out

- ORM queries, `.count()`, `.exists()`, annotations and related-object traversal. Each query is an input sequence of records, in the order the query yields it. Filters that the database applies become `Filter` over those records.
- `timezone.now()`, `timedelta` and `isoformat()`. The time is a `now` parameter in integer seconds, and projected instants are reals. Date formatting and the `last_updated`/`calculated_at` timestamps are not modelled.
- `validate_naming_convention` (`utils/validators.py:41-55`) delegates to Python's `re` engine. The scorer receives the match test as a `NameMatcher` parameter.
- Floating point. All quantities are exact reals.
  - `round(x, n)` is exact half-even rounding of the real value.
  - `statistics.stdev`'s square root is replaced by the squared comparison, which is proved equivalent for the true root (`Predictions.SquaredComparison`, `Predictions.AnomalyFires`).
- Predictions.AnomalyAlert: the alert's last field holds the sample variance, where the source stores `round(std_dev, 2)`, because square roots are not modelled.
- Capacity.ForecastAddsGrowth: no monotonicity in the horizon is claimed, because truncation of reals makes it hard to state usefully.
- The Django cache backend's TTL expiry, the `timeout` argument and `get_cache_timeout` (`utils/cache.py:84-93`). The cache is a map that never expires, and the enable flag is a parameter.
- `invalidate_cache`'s `except Exception: pass`. Deleting a key from the map cannot fail, so the silent failure path is not modelled.
- The settings lookup (`get_config`, `PLUGINS_CONFIG`). The plugin configuration is a parameter.
- Cache.KeyHoldsEveryPart: `str(arg)` of a positional argument is taken as the given string. A widget's `str()` is `DisplayName`.
- Presentation: emoji, messages, recommendation texts and template rendering.
- `get_circuit_summary` (`widgets/topology_status.py:148-168`). It only forwards a grouped database count.
- Configuration keys the code reads but never uses (`show_inter_site_only`, `min_link_speed`).
- Topology.AnalyzeSiteConnectivity: `connected_to_sites` is a set. The source turns it into a list whose order depends on Python's set iteration.
- PredictiveMaintenance.TypeTallyKeys: the 'unknown' alert type cannot arise, because every alert carries one of the three types the engine emits.
- `widgets/ipam_utilization.py`. It only forwards summary fields and slices lists.
- `BaseWidget.__repr__` and `__init__` (the request object).
- Widgets.Registry.Register: a class whose slug is None is keyed like any other slug. The model's slug is a string.
- HTTP views, serializers, URL routing, navigation, models, migrations, forms, admin, tables and filtersets.
- Concurrency. Every operation runs to completion on its own.
- The slug list expected by the tests (`tests/test_netbox_insights_dashboard_plugin.py:41-50`). It does not match the declared slugs, so it is not stated as a property.

## Findings

| source | as written | input that shows it | evidently intended | confidence | as-written member | corrected member |
|---|---|---|---|---|---|---|
| netbox-insights-dashboard-plugin/netbox_insights_dashboard_plugin/widgets/data_quality.py:69 with netbox-insights-dashboard-plugin/netbox_insights_dashboard_plugin/utils/validators.py:81-85 | with no devices the scorer returns only `score` and `message`. The widget then reads `quality_data['issues']`, which raises `KeyError` | an inventory with no devices | the dashboard shows a score of 100 with no devices and no issues | not executed | DataQuality.ContextAsWritten, DataQuality.EmptyInventoryRaises, DataQuality.DataQualityContextAsWritten | DataQuality.ContextOf, DataQuality.DataQualityContextData |
