/** The predictive engine of `utils/predictions.py`: a least-squares weekly
    growth rate over utilisation snapshots, projection of that rate to the 90%
    and 100% marks, exhaustion and anomaly alerts over the active prefixes,
    stale-device alerts, and the stable severity ordering of the alert list.
    Every quantity is an exact real; instants are integer seconds, and
    projected instants real seconds. */
module Predictions {
  import opened Common
  import opened Sorting
  import opened Inventory
  import opened Statistics

  /** The unrounded weekly growth: the slope over the points in time order,
      measured from the earliest, and 0 when there are fewer than two. */
  function WeeklyGrowth(s: seq<Sample>): real
  {
    if |s| < 2 then 0.0
    else
      var sorted := InsertionSort(s, TimeKey);
      Slope(sorted, sorted[0].timestamp)
  }

  /** What `calculate_growth_rate` returns: the weekly growth rounded to two
      decimals (its two early `return 0.0` give the same value, as 0.0 rounds
      to itself). */
  function GrowthRate(s: seq<Sample>): real
  {
    Round2(WeeklyGrowth(s))
  }

  /** `calculate_growth_rate`: sorts the caller's list in place by timestamp
      (only when it has at least two points) and returns the rounded weekly
      least-squares slope. */
  method CalculateGrowthRate(a: array<Sample>) returns (rate: real)
    modifies a
    ensures rate == GrowthRate(old(a[..]))
    ensures a.Length < 2 ==> a[..] == old(a[..])
    ensures a.Length >= 2 ==> a[..] == InsertionSort(old(a[..]), TimeKey)
  {
    if a.Length < 2 {
      RoundInteger(0);
      return 0.0;
    }
    SortInPlace(a, TimeKey);
    rate := Regression(a[..]);
  }

  /** The regression over points already in time order, with x in days since
      the first of them. */
  method Regression(points: seq<Sample>) returns (rate: real)
    requires |points| >= 2
    ensures rate == Round2(Slope(points, points[0].timestamp))
  {
    var t0 := points[0].timestamp;
    var numerator := Numerator(points, t0);
    var denominator := Denominator(points, t0);
    if denominator == 0.0 {
      RoundInteger(0);
      return 0.0;
    }
    rate := Round2(numerator / denominator * 7.0);
  }

  /** Fewer than two points give a rate of 0. */
  lemma GrowthRateTooFewPoints(s: seq<Sample>)
    requires |s| < 2
    ensures GrowthRate(s) == 0.0
  {
    RoundInteger(0);
  }

  /** Points that all share one instant give a zero denominator and a rate of 0. */
  lemma GrowthRateSameInstant(s: seq<Sample>)
    requires forall i :: 0 <= i < |s| ==> s[i].timestamp == s[0].timestamp
    ensures GrowthRate(s) == 0.0
  {
    RoundInteger(0);
    if |s| >= 2 {
      var sorted := InsertionSort(s, TimeKey);
      SortSameElements(s, TimeKey);
      forall i | 0 <= i < |sorted| ensures sorted[i].timestamp == sorted[0].timestamp {
        var j :| 0 <= j < |s| && s[j] == sorted[i];
        var k :| 0 <= k < |s| && s[k] == sorted[0];
      }
      DenominatorOfSameInstant(sorted, sorted[0].timestamp);
    }
  }

  /** A constant series has rate 0. */
  lemma GrowthRateConstant(s: seq<Sample>, c: real)
    requires forall i :: 0 <= i < |s| ==> s[i].value == c
    ensures GrowthRate(s) == 0.0
  {
    RoundInteger(0);
    if |s| >= 2 {
      var sorted := InsertionSort(s, TimeKey);
      SortSameElements(s, TimeKey);
      forall i | 0 <= i < |sorted| ensures sorted[i].value == c {
        var j :| 0 <= j < |s| && s[j] == sorted[i];
      }
      SlopeOfConstant(sorted, sorted[0].timestamp, c);
    }
  }

  /** Points on an exact line `value = a + b * days since c` (with at least two
      distinct instants) have weekly growth `7 * b`, whatever the anchor `c`. */
  lemma GrowthRateOfLine(s: seq<Sample>, a: real, b: real, c: int)
    requires OnLine(s, c, a, b)
    requires exists i :: 0 <= i < |s| && s[i].timestamp != s[0].timestamp
    ensures WeeklyGrowth(s) == 7.0 * b
    ensures GrowthRate(s) == Round2(7.0 * b)
  {
    var sorted := InsertionSort(s, TimeKey);
    SortSameElements(s, TimeKey);
    LineOfSubset(s, sorted, c, a, b);
    var j := SecondInstant(s, sorted);
    SlopeOfAnyLine(sorted, c, sorted[0].timestamp, a, b, j);
    assert WeeklyGrowth(s) == Slope(sorted, sorted[0].timestamp);
  }

  /** When the points span two instants, so does any list holding the same
      points: the index of a point of `r` at another instant than `r[0]`. */
  lemma SecondInstant(s: seq<Sample>, r: seq<Sample>) returns (j: nat)
    requires exists i :: 0 <= i < |s| && s[i].timestamp != s[0].timestamp
    requires forall i :: 0 <= i < |s| ==> s[i] in r
    requires |r| > 0
    ensures |s| >= 2
    ensures j < |r| && r[j].timestamp != r[0].timestamp
  {
    var i :| 0 <= i < |s| && s[i].timestamp != s[0].timestamp;
    var j1 :| 0 <= j1 < |r| && r[j1] == s[i];
    var j2 :| 0 <= j2 < |r| && r[j2] == s[0];
    j := if r[j1].timestamp != r[0].timestamp then j1 else j2;
  }

  /** The rate depends only on which points there are, not on the order the
      caller lists them in. */
  lemma GrowthRateOrderIndependent(s: seq<Sample>, t: seq<Sample>)
    requires multiset(s) == multiset(t)
    ensures GrowthRate(s) == GrowthRate(t)
  {
    assert |s| == |multiset(s)| == |multiset(t)| == |t|;
    if |s| >= 2 {
      var ss, st := InsertionSort(s, TimeKey), InsertionSort(t, TimeKey);
      SortPermutation(s, TimeKey);
      SortPermutation(t, TimeKey);
      SortFirstIsLeast(s, TimeKey);
      SortFirstIsLeast(t, TimeKey);
      assert ss[0] in multiset(t);
      assert st[0] in multiset(s);
      assert st[0].timestamp == ss[0].timestamp;
      SlopeOfPermutation(ss, st, ss[0].timestamp);
    }
  }

  /** A snapshot of prefix `prefixId` taken at or after `cutoff`. */
  predicate Within(r: Snapshot, prefixId: int, cutoff: int)
  {
    r.prefixId == prefixId && r.calculatedAt >= cutoff
  }

  /** `prefix_id=…, calculated_at__gte=cutoff` as a filter. */
  function InWindow(prefixId: int, cutoff: int): Snapshot -> bool
  {
    (r: Snapshot) => Within(r, prefixId, cutoff)
  }

  /** `(calculated_at, utilization)` of one snapshot. */
  function SampleOf(r: Snapshot): Sample
  {
    Sample(r.calculatedAt, r.utilization)
  }

  /** The snapshots of one prefix taken at or after `cutoff`, in
      `calculated_at` order: the source's filtered and ordered queryset. */
  function Window(snapshots: seq<Snapshot>, prefixId: int, cutoff: int): (w: seq<Sample>)
    ensures SortedBy(w, TimeKey)
  {
    var points := MapList(Filter(snapshots, InWindow(prefixId, cutoff)), SampleOf);
    SortSorted(points, TimeKey);
    InsertionSort(points, TimeKey)
  }

  /** The unsorted samples come from exactly the snapshots of the prefix
      since the cutoff. */
  lemma SamplesOfWindow(snapshots: seq<Snapshot>, prefixId: int, cutoff: int)
    ensures forall x :: x in MapList(Filter(snapshots, InWindow(prefixId, cutoff)), SampleOf) <==>
              exists j :: 0 <= j < |snapshots| && Within(snapshots[j], prefixId, cutoff) && x == SampleOf(snapshots[j])
  {
    var rows := Filter(snapshots, InWindow(prefixId, cutoff));
    var points := MapList(rows, SampleOf);
    FilterMembers(snapshots, InWindow(prefixId, cutoff));
    forall x | x in points
      ensures exists j :: 0 <= j < |snapshots| && Within(snapshots[j], prefixId, cutoff) && x == SampleOf(snapshots[j])
    {
      var i :| 0 <= i < |points| && points[i] == x;
      assert rows[i] in snapshots && InWindow(prefixId, cutoff)(rows[i]);
      var j :| 0 <= j < |snapshots| && snapshots[j] == rows[i];
    }
    forall j | 0 <= j < |snapshots| && Within(snapshots[j], prefixId, cutoff)
      ensures SampleOf(snapshots[j]) in points
    {
      assert InWindow(prefixId, cutoff)(snapshots[j]);
      var i :| 0 <= i < |rows| && rows[i] == snapshots[j];
      assert points[i] == SampleOf(snapshots[j]);
    }
  }

  /** The window holds one sample for each snapshot of the prefix since the
      cutoff, and nothing else. */
  lemma WindowExact(snapshots: seq<Snapshot>, prefixId: int, cutoff: int)
    ensures multiset(Window(snapshots, prefixId, cutoff))
            == multiset(MapList(Filter(snapshots, InWindow(prefixId, cutoff)), SampleOf))
    ensures |Window(snapshots, prefixId, cutoff)| == Count(snapshots, InWindow(prefixId, cutoff))
    ensures forall x :: x in Window(snapshots, prefixId, cutoff) <==>
              exists j :: 0 <= j < |snapshots| && Within(snapshots[j], prefixId, cutoff) && x == SampleOf(snapshots[j])
  {
    var points := MapList(Filter(snapshots, InWindow(prefixId, cutoff)), SampleOf);
    var w := Window(snapshots, prefixId, cutoff);
    SortPermutation(points, TimeKey);
    assert multiset(w) == multiset(points);
    assert |w| == |multiset(w)| == |multiset(points)| == |points|;
    SamplesOfWindow(snapshots, prefixId, cutoff);
    forall x
      ensures x in w <==> x in points
    {
      assert x in w <==> x in multiset(w);
      assert x in points <==> x in multiset(points);
    }
  }

  /** Weeks until `current` grows to `threshold` at `rate` per week; absent
      unless the rate is positive and the threshold is still ahead. */
  function WeeksToThreshold(threshold: real, current: real, rate: real): (w: Option<real>)
    ensures w.Some? <==> rate > 0.0 && current < threshold
    ensures w.Some? ==> w.value > 0.0
  {
    var weeks := if rate > 0.0 then (threshold - current) / rate else 0.0;
    if weeks > 0.0 then Some(weeks) else None
  }

  /** Growing from `current` at `rate` for the projected weeks reaches the
      threshold exactly. */
  lemma ThresholdReached(threshold: real, current: real, rate: real)
    requires WeeksToThreshold(threshold, current, rate).Some?
    ensures current + WeeksToThreshold(threshold, current, rate).value * rate == threshold
  {
  }

  /** A higher threshold is reached later. */
  lemma ProjectionMonotone(t1: real, t2: real, current: real, rate: real)
    requires t1 < t2
    requires WeeksToThreshold(t1, current, rate).Some?
    ensures WeeksToThreshold(t2, current, rate).Some?
    ensures WeeksToThreshold(t1, current, rate).value < WeeksToThreshold(t2, current, rate).value
  {
    var w1, w2 := WeeksToThreshold(t1, current, rate).value, WeeksToThreshold(t2, current, rate).value;
    assert w1 == (t1 - current) / rate && w2 == (t2 - current) / rate;
    assert w2 - w1 == (t2 - t1) / rate;
  }

  function InstantAfterWeeks(now: int, weeks: real): real
  {
    now as real + WeeksInSeconds(weeks)
  }

  datatype TrendReport =
    | InsufficientData
    | Trend(
        currentUtilization: real,
        growthRatePercentPerWeek: real,
        weeksTo90Percent: Option<real>,
        weeksTo100Percent: Option<real>,
        projected90PercentDate: Option<real>,
        projected100PercentDate: Option<real>,
        dataPointsCount: nat,
        analysisPeriodDays: int)

  function RoundedWeeks(w: Option<real>): Option<real>
  {
    if w.Some? then Some(Round1(w.value)) else None
  }

  function ProjectedInstant(now: int, w: Option<real>): Option<real>
  {
    if w.Some? then Some(InstantAfterWeeks(now, w.value)) else None
  }

  /** `analyze_ipam_trends` for one prefix over the last `days` days. */
  function AnalyzeIpamTrends(snapshots: seq<Snapshot>, prefixId: int, days: int, now: int): (r: TrendReport)
    ensures r.InsufficientData? <==> |Window(snapshots, prefixId, now - DaysInSeconds(days))| == 0
  {
    var points := Window(snapshots, prefixId, now - DaysInSeconds(days));
    if |points| == 0 then InsufficientData
    else
      var rate := GrowthRate(points);
      var current := points[|points| - 1].value;
      var w90 := WeeksToThreshold(90.0, current, rate);
      var w100 := WeeksToThreshold(100.0, current, rate);
      Trend(Round2(current), rate, RoundedWeeks(w90), RoundedWeeks(w100),
            ProjectedInstant(now, w90), ProjectedInstant(now, w100), |points|, days)
  }

  /** The projections of a trend report: present only for a positive rate and
      a current value below the mark, and the 90% date comes before the 100%
      date. */
  lemma TrendProjections(snapshots: seq<Snapshot>, prefixId: int, days: int, now: int)
    requires AnalyzeIpamTrends(snapshots, prefixId, days, now).Trend?
    ensures var r := AnalyzeIpamTrends(snapshots, prefixId, days, now);
            var points := Window(snapshots, prefixId, now - DaysInSeconds(days));
            var current := points[|points| - 1].value;
            && (r.projected90PercentDate.Some? <==> r.growthRatePercentPerWeek > 0.0 && current < 90.0)
            && (r.projected100PercentDate.Some? <==> r.growthRatePercentPerWeek > 0.0 && current < 100.0)
            && (r.weeksTo90Percent.Some? <==> r.projected90PercentDate.Some?)
            && (r.weeksTo100Percent.Some? <==> r.projected100PercentDate.Some?)
            && (r.projected90PercentDate.Some? ==>
                  r.projected100PercentDate.Some? &&
                  now as real < r.projected90PercentDate.value < r.projected100PercentDate.value)
  {
    var points := Window(snapshots, prefixId, now - DaysInSeconds(days));
    var rate := GrowthRate(points);
    var current := points[|points| - 1].value;
    if WeeksToThreshold(90.0, current, rate).Some? {
      ProjectionMonotone(90.0, 100.0, current, rate);
    }
  }

  datatype Severity = High | Medium | Low

  /** The rank the alert sort uses: high 0, medium 1, low 2. */
  function Rank(s: Severity): nat
  {
    match s
    case High => 0
    case Medium => 1
    case Low => 2
  }

  datatype Alert =
    | IpamExhaustion(
        severity: Severity, prefix: string, prefixId: int, site: string,
        currentUtilization: real, growthRate: real, weeksRemaining: real,
        estimatedExhaustion: real)
    | AnomalyDetected(
        severity: Severity, prefix: string, prefixId: int, site: string,
        currentUtilization: real, meanUtilization: real, variance: real)
    | StaleDeviceData(
        severity: Severity, device: string, deviceId: int, site: string,
        daysSinceUpdate: int, lastUpdated: int)
  {
    /** The `type` key of the alert record. */
    function TypeName(): string
    {
      match this
      case IpamExhaustion(_, _, _, _, _, _, _, _) => "ipam_exhaustion"
      case AnomalyDetected(_, _, _, _, _, _, _) => "anomaly_detected"
      case StaleDeviceData(_, _, _, _, _, _) => "stale_device_data"
    }
  }

  function SeverityKey(a: Alert): real
  {
    Rank(a.severity) as real
  }

  /** `(100 - current) / rate`, or 999 weeks for a rate that is not positive. */
  function WeeksToExhaustion(current: real, rate: real): real
  {
    if rate > 0.0 then (100.0 - current) / rate else 999.0
  }

  /** Growing from `current` at a positive weekly `rate` for the weeks to
      exhaustion reaches exactly 100%; with no growth the estimate is the
      999-week placeholder. */
  lemma ExhaustionReached(current: real, rate: real)
    ensures rate > 0.0 ==> current + WeeksToExhaustion(current, rate) * rate == 100.0
    ensures rate <= 0.0 ==> WeeksToExhaustion(current, rate) == 999.0
  {
  }

  /** The exhaustion decision for a prefix whose latest utilisation is
      `current` and whose weekly growth is `rate`: an alert when the growth
      reaches the threshold and exhaustion falls within the horizon, high
      severity when it is less than four weeks away. */
  function ExhaustionAlert(p: Prefix, current: real, rate: real, horizonDays: int, growthThreshold: real, now: int)
    : (r: Option<Alert>)
    ensures r.Some? <==> rate >= growthThreshold && WeeksToExhaustion(current, rate) < horizonDays as real / 7.0
    ensures r.Some? ==> r.value.IpamExhaustion? && r.value.prefixId == p.id && r.value.severity != Low
    ensures r.Some? ==> (r.value.severity == High <==> WeeksToExhaustion(current, rate) < 4.0)
  {
    if rate < growthThreshold then None
    else
      var weeks := WeeksToExhaustion(current, rate);
      if weeks < horizonDays as real / 7.0 then
        Some(IpamExhaustion(
          if weeks < 4.0 then High else Medium, p.prefix, p.id, SiteName(p.site),
          Round1(current), Round2(rate), Round1(weeks), InstantAfterWeeks(now, weeks)))
      else None
  }

  /** The exhaustion check of one prefix over its windowed points: none with
      fewer than two points, otherwise the decision on the latest value and
      the growth rate. */
  function PrefixExhaustion(p: Prefix, points: seq<Sample>, horizonDays: int, growthThreshold: real, now: int)
    : Option<Alert>
  {
    if |points| < 2 then None
    else ExhaustionAlert(p, points[|points| - 1].value, GrowthRate(points), horizonDays, growthThreshold, now)
  }

  /** An exhaustion alert's estimated instant lies before the end of the
      forecast horizon; with a positive rate it lies ahead of `now` exactly
      when the prefix is not yet full. */
  lemma ExhaustionWithinHorizon(p: Prefix, current: real, rate: real, horizonDays: int, growthThreshold: real, now: int)
    requires ExhaustionAlert(p, current, rate, horizonDays, growthThreshold, now).Some?
    ensures ExhaustionAlert(p, current, rate, horizonDays, growthThreshold, now).value.estimatedExhaustion
              < (now + DaysInSeconds(horizonDays)) as real
    ensures rate > 0.0 ==>
              ((ExhaustionAlert(p, current, rate, horizonDays, growthThreshold, now).value.estimatedExhaustion > now as real) <==>
               (current < 100.0))
  {
    HorizonBound(now, WeeksToExhaustion(current, rate), horizonDays);
    if rate > 0.0 {
      WeeksSign(current, rate);
    }
  }

  lemma HorizonBound(now: int, weeks: real, horizonDays: int)
    requires weeks < horizonDays as real / 7.0
    ensures InstantAfterWeeks(now, weeks) < (now + DaysInSeconds(horizonDays)) as real
  {
  }

  lemma WeeksSign(current: real, rate: real)
    requires rate > 0.0
    ensures WeeksToExhaustion(current, rate) > 0.0 <==> current < 100.0
  {
  }


  /** The anomaly check of one prefix: with at least five points, the latest
      is flagged when it lies more than two standard deviations from the
      mean, compared as squares. */
  function AnomalyAlert(p: Prefix, points: seq<Sample>): (r: Option<Alert>)
    ensures r.Some? ==> r.value.AnomalyDetected? && r.value.severity == Medium && r.value.prefixId == p.id
    ensures |points| < 5 ==> r.None?
  {
    if |points| < 5 then None
    else
      var m := Mean(points);
      var latest := points[|points| - 1].value;
      var variance := SampleVariance(points);
      if Square(latest - m) > 4.0 * variance then
        Some(AnomalyDetected(Medium, p.prefix, p.id, SiteName(p.site), Round1(latest), Round1(m), variance))
      else None
  }

  /** Comparing squares is the source's `abs(latest - mean) > 2 * std_dev`
      for the standard deviation `sd`, the non-negative root of the variance. */
  lemma SquaredComparison(d: real, sd: real, variance: real)
    requires sd >= 0.0 && Square(sd) == variance
    ensures Abs(d) > 2.0 * sd <==> Square(d) > 4.0 * variance
  {
    var e := Abs(d);
    var t := 2.0 * sd;
    SquareAbs(d);
    assert Square(t) == 4.0 * variance;
    if e > t {
      SquareLess(t, e);
    } else if e < t {
      SquareLess(e, t);
    }
  }

  /** With at least five points, the latest is flagged exactly when it lies
      more than two standard deviations `sd` from the mean. */
  lemma AnomalyFires(p: Prefix, points: seq<Sample>, sd: real)
    requires |points| >= 5 && sd >= 0.0 && Square(sd) == SampleVariance(points)
    ensures AnomalyAlert(p, points).Some? <==> Abs(points[|points| - 1].value - Mean(points)) > 2.0 * sd
  {
    SquaredComparison(points[|points| - 1].value - Mean(points), sd, SampleVariance(points));
  }

  /** A flat series is never flagged. */
  lemma AnomalyNeverOnConstant(p: Prefix, points: seq<Sample>, c: real)
    requires forall i :: 0 <= i < |points| ==> points[i].value == c
    ensures AnomalyAlert(p, points).None?
  {
    if |points| >= 5 {
      MeanOfConstant(points, c);
      VarianceOfConstant(points, c);
      assert Square(points[|points| - 1].value - c) == 0.0;
    }
  }

  /** The generated exhaustion alerts, in prefix order. */
  function ExhaustionAlerts(prefixes: seq<Prefix>, snapshots: seq<Snapshot>, cutoff: int,
                            horizonDays: int, growthThreshold: real, now: int): seq<Alert>
  {
    if |prefixes| == 0 then []
    else
      var last := prefixes[|prefixes| - 1];
      var a := PrefixExhaustion(last, Window(snapshots, last.id, cutoff), horizonDays, growthThreshold, now);
      ExhaustionAlerts(prefixes[..|prefixes| - 1], snapshots, cutoff, horizonDays, growthThreshold, now)
        + (if a.Some? then [a.value] else [])
  }

  /** The generated anomaly alerts, in prefix order. */
  function AnomalyAlerts(prefixes: seq<Prefix>, snapshots: seq<Snapshot>, cutoff: int): seq<Alert>
  {
    if |prefixes| == 0 then []
    else
      var last := prefixes[|prefixes| - 1];
      var a := AnomalyAlert(last, Window(snapshots, last.id, cutoff));
      AnomalyAlerts(prefixes[..|prefixes| - 1], snapshots, cutoff) + (if a.Some? then [a.value] else [])
  }

  predicate IsActivePrefix(p: Prefix)
  {
    p.status == "active"
  }

  /** The exhaustion check of one prefix as the source runs it: the points go
      through `calculate_growth_rate`, which leaves their time order as it
      was, and the latest point gives the current utilisation. */
  method CheckExhaustion(p: Prefix, points: seq<Sample>, horizonDays: int, growthThreshold: real, now: int)
    returns (found: Option<Alert>)
    requires SortedBy(points, TimeKey)
    ensures found == PrefixExhaustion(p, points, horizonDays, growthThreshold, now)
  {
    if |points| < 2 {
      return None;
    }
    var dataPoints := ToArray(points);
    var rate := CalculateGrowthRate(dataPoints);
    SortOfSorted(points, TimeKey);
    assert dataPoints[..] == points;
    var current := dataPoints[dataPoints.Length - 1].value;
    found := ExhaustionAlert(p, current, rate, horizonDays, growthThreshold, now);
  }

  function Listed(a: Option<Alert>): seq<Alert>
  {
    if a.Some? then [a.value] else []
  }

  /** The first loop of `get_predictive_alerts`. */
  method CollectExhaustion(active: seq<Prefix>, snapshots: seq<Snapshot>, cutoff: int,
                           horizonDays: int, growthThreshold: real, now: int)
    returns (alerts: seq<Alert>)
    ensures alerts == ExhaustionAlerts(active, snapshots, cutoff, horizonDays, growthThreshold, now)
  {
    alerts := [];
    for i := 0 to |active|
      invariant alerts == ExhaustionAlerts(active[..i], snapshots, cutoff, horizonDays, growthThreshold, now)
    {
      var found := CheckExhaustion(active[i], Window(snapshots, active[i].id, cutoff),
                                   horizonDays, growthThreshold, now);
      assert active[..i + 1][..i] == active[..i];
      alerts := alerts + Listed(found);
    }
    assert active[..|active|] == active;
  }

  /** The second loop of `get_predictive_alerts`. */
  method CollectAnomalies(active: seq<Prefix>, snapshots: seq<Snapshot>, cutoff: int)
    returns (alerts: seq<Alert>)
    ensures alerts == AnomalyAlerts(active, snapshots, cutoff)
  {
    alerts := [];
    for i := 0 to |active|
      invariant alerts == AnomalyAlerts(active[..i], snapshots, cutoff)
    {
      var found := AnomalyAlert(active[i], Window(snapshots, active[i].id, cutoff));
      assert active[..i + 1][..i] == active[..i];
      alerts := alerts + Listed(found);
    }
    assert active[..|active|] == active;
  }

  /** The alerts `get_predictive_alerts` generates, before sorting:
      exhaustion alerts, then anomaly alerts, over the active prefixes. */
  function GeneratedAlerts(prefixes: seq<Prefix>, snapshots: seq<Snapshot>, cutoff: int,
                           horizonDays: int, growthThreshold: real, now: int): seq<Alert>
  {
    var active := Filter(prefixes, IsActivePrefix);
    ExhaustionAlerts(active, snapshots, cutoff, horizonDays, growthThreshold, now)
      + AnomalyAlerts(active, snapshots, cutoff)
  }

  /** `get_predictive_alerts`: the generated alerts, over snapshots from the
      last `trendPeriodDays` days, stably sorted by severity rank. */
  method GetPredictiveAlerts(prefixes: seq<Prefix>, snapshots: seq<Snapshot>, trendPeriodDays: int,
                             forecastHorizonDays: int, growthThreshold: real, now: int)
    returns (alerts: seq<Alert>)
    ensures alerts == InsertionSort(
              GeneratedAlerts(prefixes, snapshots, now - DaysInSeconds(trendPeriodDays),
                              forecastHorizonDays, growthThreshold, now),
              SeverityKey)
  {
    var cutoff := now - DaysInSeconds(trendPeriodDays);
    var active := Filter(prefixes, IsActivePrefix);
    var exhaustion := CollectExhaustion(active, snapshots, cutoff, forecastHorizonDays, growthThreshold, now);
    var anomalies := CollectAnomalies(active, snapshots, cutoff);
    // alerts.sort(key=lambda x: severity_order.get(x['severity'], 3))
    alerts := SortList(exhaustion + anomalies, SeverityKey);
  }

  function OfSeverity(s: Severity): Alert -> bool
  {
    (a: Alert) => a.severity == s
  }

  /** The alert list is in severity order, holds the same alerts as were
      generated, and alerts of equal severity keep the order in which they
      were generated. */
  lemma AlertOrder(generated: seq<Alert>, s: Severity)
    ensures SortedBy(InsertionSort(generated, SeverityKey), SeverityKey)
    ensures multiset(InsertionSort(generated, SeverityKey)) == multiset(generated)
    ensures Filter(InsertionSort(generated, SeverityKey), OfSeverity(s)) == Filter(generated, OfSeverity(s))
  {
    var sorted := InsertionSort(generated, SeverityKey);
    SortSorted(generated, SeverityKey);
    SortPermutation(generated, SeverityKey);
    SortStable(generated, SeverityKey, Rank(s) as real);
    SeverityClass(sorted, s);
    SeverityClass(generated, s);
  }

  /** The alerts of one severity are those of its rank. */
  lemma SeverityClass(xs: seq<Alert>, s: Severity)
    ensures KeyClass(xs, SeverityKey, Rank(s) as real) == Filter(xs, OfSeverity(s))
  {
    var p, q := KeyIs(SeverityKey, Rank(s) as real), OfSeverity(s);
    forall i | 0 <= i < |xs| ensures p(xs[i]) == q(xs[i]) {
      KeyIsApplied(SeverityKey, Rank(s) as real, xs[i]);
    }
    FilterEquivalent(xs, p, q);
  }

  /** A device alert is raised for an active device last updated before the cutoff. */
  predicate IsStale(d: Device, cutoff: int)
  {
    IsActive(d) && d.lastUpdated < cutoff
  }

  function StaleBefore(cutoff: int): Device -> bool
  {
    (d: Device) => IsStale(d, cutoff)
  }

  function StaleAlert(d: Device, now: int): Alert
  {
    StaleDeviceData(Low, d.name, d.id, SiteName(d.site), WholeDays(now - d.lastUpdated), d.lastUpdated)
  }

  function StaleAlerts(devices: seq<Device>, cutoff: int, now: int): seq<Alert>
  {
    if |devices| == 0 then []
    else
      var d := devices[|devices| - 1];
      StaleAlerts(devices[..|devices| - 1], cutoff, now) + (if IsStale(d, cutoff) then [StaleAlert(d, now)] else [])
  }

  /** The stale alerts are exactly one low-severity alert per stale device, in
      device order, each counting whole days since the last update. */
  lemma {:induction false} StaleAlertsAreStaleDevices(devices: seq<Device>, cutoff: int, now: int)
    ensures var stale := Filter(devices, StaleBefore(cutoff));
            var r := StaleAlerts(devices, cutoff, now);
            && |r| == |stale|
            && forall i :: 0 <= i < |r| ==> r[i] == StaleAlert(stale[i], now)
  {
    if |devices| > 0 {
      StaleAlertsAreStaleDevices(devices[..|devices| - 1], cutoff, now);
    }
  }

  /** Every stale alert is low severity and reports a device that is active
      and was last updated before the cutoff. */
  lemma StaleAlertsShape(devices: seq<Device>, cutoff: int, now: int)
    ensures forall i :: 0 <= i < |StaleAlerts(devices, cutoff, now)| ==>
              var a := StaleAlerts(devices, cutoff, now)[i];
              && a.StaleDeviceData? && a.severity == Low && a.lastUpdated < cutoff
              && WholeDays(now - a.lastUpdated) == a.daysSinceUpdate
  {
    StaleAlertsAreStaleDevices(devices, cutoff, now);
  }

  /** `detect_stale_devices`. */
  method DetectStaleDevices(devices: seq<Device>, staleDays: int, now: int) returns (alerts: seq<Alert>)
    ensures alerts == StaleAlerts(devices, now - DaysInSeconds(staleDays), now)
  {
    var cutoff := now - DaysInSeconds(staleDays);
    alerts := [];
    for i := 0 to |devices|
      invariant alerts == StaleAlerts(devices[..i], cutoff, now)
    {
      var d := devices[i];
      assert devices[..i + 1][..i] == devices[..i];
      if IsStale(d, cutoff) {
        var daysSinceUpdate := WholeDays(now - d.lastUpdated);
        alerts := alerts + [StaleDeviceData(Low, d.name, d.id, SiteName(d.site), daysSinceUpdate, d.lastUpdated)];
      }
    }
    assert devices[..|devices|] == devices;
  }
}
