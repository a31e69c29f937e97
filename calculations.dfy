/** The IPAM utilisation logic of `utils/calculations.py`: the utilisation of
    one prefix with its status band, the filtered summary with its threshold
    buckets and descending sort, VLAN usage per site, and the projected
    exhaustion instant of a prefix. Address counts come in with the prefix
    record; a failure while counting is the exception the source catches. */
module Calculations {
  import opened Common
  import opened Sorting
  import opened Inventory

  datatype Status = Critical | Danger | Warning | Healthy | Error

  /** The status band of an unrounded utilisation. */
  function StatusOf(utilization: real): (r: Status)
    ensures r != Error
  {
    if utilization >= 95.0 then Critical
    else if utilization >= 90.0 then Danger
    else if utilization >= 75.0 then Warning
    else Healthy
  }

  /** How bad a band is: healthy 0, warning 1, danger 2, critical 3. */
  function Badness(s: Status): nat
  {
    match s
    case Healthy => 0
    case Warning => 1
    case Danger => 2
    case Critical => 3
    case Error => 4
  }

  /** Each band is the interval of utilisation its thresholds bound. */
  lemma StatusBands(u: real)
    ensures StatusOf(u) == Critical <==> u >= 95.0
    ensures StatusOf(u) == Danger <==> 90.0 <= u < 95.0
    ensures StatusOf(u) == Warning <==> 75.0 <= u < 90.0
    ensures StatusOf(u) == Healthy <==> u < 75.0
  {
  }

  /** A higher utilisation never gets a healthier band. */
  lemma StatusMonotone(u: real, v: real)
    requires u <= v
    ensures Badness(StatusOf(u)) <= Badness(StatusOf(v))
  {
  }

  /** The dictionary `calculate_prefix_utilization` returns: the full record,
      or the error record of the `except` branch. */
  datatype Utilization =
    | Measured(
        prefix: string,
        prefixId: int,
        site: string,
        siteId: Option<int>,
        vrf: string,
        role: string,
        totalIps: int,
        usedIps: int,
        availableIps: int,
        utilization: real,
        status: Status,
        description: string)
    | Failed(prefix: string, error: string)

  /** `util_data.get('utilization', 0)`: both records carry the key, the
      error record with 0.0. */
  function UtilValue(u: Utilization): real
  {
    if u.Measured? then u.utilization else 0.0
  }

  function StatusField(u: Utilization): Status
  {
    if u.Measured? then u.status else Error
  }

  /** `calculate_prefix_utilization`. */
  function PrefixUtilization(p: Prefix): (r: Utilization)
    ensures r.prefix == p.prefix
    ensures p.counts.Err? <==> r.Failed?
    ensures p.counts.Err? ==> r.error == p.counts.error && UtilValue(r) == 0.0 && StatusField(r) == Error
    ensures p.counts.Ok? ==>
              var total, used := p.counts.value.total, p.counts.value.used;
              && r.totalIps == total && r.usedIps == used
              && r.availableIps == total - used
              && r.status == StatusOf(Percent(used, total, 0.0))
              && -0.005 <= r.utilization - Percent(used, total, 0.0) <= 0.005
  {
    match p.counts
    case Err(e) => Failed(p.prefix, e)
    case Ok(c) =>
      var utilization := Percent(c.used, c.total, 0.0);
      RoundClose(utilization);
      Measured(
        p.prefix, p.id, SiteName(p.site), if p.site.Some? then Some(p.site.value.id) else None,
        if p.vrf.Some? then p.vrf.value else "Global",
        if p.role.Some? then p.role.value else "No Role",
        c.total, c.used, c.total - c.used, Round2(utilization), StatusOf(utilization), p.description)
  }

  /** A prefix holding no more addresses than it has reports a utilisation
      between 0 and 100. */
  lemma UtilizationWithinPercent(p: Prefix)
    requires p.counts.Ok? && 0 <= p.counts.value.used <= p.counts.value.total
    ensures 0.0 <= UtilValue(PrefixUtilization(p)) <= 100.0
  {
    RoundWithin(Percent(p.counts.value.used, p.counts.value.total, 0.0));
  }

  /** `if site_id:` and `if role_slug:` test Python truthiness. */
  predicate SiteSelects(siteId: Option<int>, p: Prefix)
  {
    siteId.None? || siteId.value == 0 || (p.site.Some? && p.site.value.id == siteId.value)
  }

  predicate RoleSelects(roleSlug: Option<string>, p: Prefix)
  {
    roleSlug.None? || roleSlug.value == "" || p.roleSlug == roleSlug
  }

  /** An active prefix that passes the site and role filters that are set. */
  predicate Selects(siteId: Option<int>, roleSlug: Option<string>, p: Prefix)
  {
    p.status == "active" && SiteSelects(siteId, p) && RoleSelects(roleSlug, p)
  }

  /** The queryset of the summary: active prefixes, narrowed by the site and
      role filters that are set, in database order. */
  function Selected(prefixes: seq<Prefix>, siteId: Option<int>, roleSlug: Option<string>): (r: seq<Prefix>)
    ensures |r| <= |prefixes|
    ensures forall p :: p in r <==> p in prefixes && Selects(siteId, roleSlug, p)
  {
    if |prefixes| == 0 then []
    else
      var p := prefixes[|prefixes| - 1];
      Selected(prefixes[..|prefixes| - 1], siteId, roleSlug)
        + (if Selects(siteId, roleSlug, p) then [p] else [])
  }

  /** `[calculate_prefix_utilization(p) for p in prefixes]`. */
  function Utilizations(prefixes: seq<Prefix>): (r: seq<Utilization>)
    ensures |r| == |prefixes|
    ensures forall i :: 0 <= i < |r| ==> r[i] == PrefixUtilization(prefixes[i])
  {
    if |prefixes| == 0 then []
    else Utilizations(prefixes[..|prefixes| - 1]) + [PrefixUtilization(prefixes[|prefixes| - 1])]
  }

  /** The bucket of the summary loop: critical first, then warning, else healthy. */
  datatype Bucket = CriticalBucket | WarningBucket | HealthyBucket

  function BucketOf(u: real, warningThreshold: real, criticalThreshold: real): Bucket
  {
    if u >= criticalThreshold then CriticalBucket
    else if u >= warningThreshold then WarningBucket
    else HealthyBucket
  }

  /** Critical takes precedence: an entry at or above both thresholds is critical. */
  lemma BucketPrecedence(u: real, warningThreshold: real, criticalThreshold: real)
    ensures BucketOf(u, warningThreshold, criticalThreshold) == CriticalBucket <==> u >= criticalThreshold
    ensures (BucketOf(u, warningThreshold, criticalThreshold) == WarningBucket)
              == (warningThreshold <= u < criticalThreshold)
    ensures (BucketOf(u, warningThreshold, criticalThreshold) == HealthyBucket)
              == (u < warningThreshold && u < criticalThreshold)
  {
  }

  /** The number of entries that land in bucket `b`. */
  function BucketCount(entries: seq<Utilization>, b: Bucket, warningThreshold: real, criticalThreshold: real): nat
  {
    if |entries| == 0 then 0
    else
      BucketCount(entries[..|entries| - 1], b, warningThreshold, criticalThreshold)
        + (if BucketOf(UtilValue(entries[|entries| - 1]), warningThreshold, criticalThreshold) == b then 1 else 0)
  }

  /** Every entry is counted in exactly one bucket. */
  lemma {:induction false} BucketCountsAddUp(entries: seq<Utilization>, warningThreshold: real, criticalThreshold: real)
    ensures BucketCount(entries, CriticalBucket, warningThreshold, criticalThreshold)
          + BucketCount(entries, WarningBucket, warningThreshold, criticalThreshold)
          + BucketCount(entries, HealthyBucket, warningThreshold, criticalThreshold) == |entries|
  {
    if |entries| > 0 {
      BucketCountsAddUp(entries[..|entries| - 1], warningThreshold, criticalThreshold);
    }
  }

  lemma UtilizationsStep(s: seq<Prefix>, i: nat)
    requires i < |s|
    ensures Utilizations(s[..i + 1]) == Utilizations(s[..i]) + [PrefixUtilization(s[i])]
  {
    assert s[..i + 1][..i] == s[..i];
  }

  /** One more entry adds one to the count of its own bucket only. */
  lemma BucketCountStep(entries: seq<Utilization>, e: Utilization, warningThreshold: real, criticalThreshold: real)
    ensures forall b :: BucketCount(entries + [e], b, warningThreshold, criticalThreshold)
              == BucketCount(entries, b, warningThreshold, criticalThreshold)
                 + (if BucketOf(UtilValue(e), warningThreshold, criticalThreshold) == b then 1 else 0)
  {
    assert (entries + [e])[..|entries|] == entries;
  }

  /** Sort key for `sort(key=lambda x: x.get('utilization', 0), reverse=True)`. */
  function DescendingUtil(u: Utilization): real
  {
    -UtilValue(u)
  }

  datatype Summary = Summary(
    totalPrefixes: nat,
    warningCount: nat,
    criticalCount: nat,
    healthyCount: nat,
    prefixes: seq<Utilization>,
    warningThreshold: real,
    criticalThreshold: real)

  /** `get_ipam_utilization_summary`, without the `calculated_at` timestamp. */
  method IpamUtilizationSummary(prefixes: seq<Prefix>, siteId: Option<int>, roleSlug: Option<string>,
                                warningThreshold: real, criticalThreshold: real)
    returns (summary: Summary)
    ensures var entries := Utilizations(Selected(prefixes, siteId, roleSlug));
            && summary.totalPrefixes == |entries|
            && summary.criticalCount == BucketCount(entries, CriticalBucket, warningThreshold, criticalThreshold)
            && summary.warningCount == BucketCount(entries, WarningBucket, warningThreshold, criticalThreshold)
            && summary.healthyCount == BucketCount(entries, HealthyBucket, warningThreshold, criticalThreshold)
            && summary.prefixes == InsertionSort(entries, DescendingUtil)
    ensures summary.criticalCount + summary.warningCount + summary.healthyCount == summary.totalPrefixes
    ensures summary.warningThreshold == warningThreshold && summary.criticalThreshold == criticalThreshold
  {
    var selected := Selected(prefixes, siteId, roleSlug);
    var prefixData: seq<Utilization> := [];
    var totalPrefixes, warningCount, criticalCount, healthyCount := 0, 0, 0, 0;
    for i := 0 to |selected|
      invariant prefixData == Utilizations(selected[..i])
      invariant totalPrefixes == i
      invariant criticalCount == BucketCount(prefixData, CriticalBucket, warningThreshold, criticalThreshold)
      invariant warningCount == BucketCount(prefixData, WarningBucket, warningThreshold, criticalThreshold)
      invariant healthyCount == BucketCount(prefixData, HealthyBucket, warningThreshold, criticalThreshold)
    {
      var utilData := PrefixUtilization(selected[i]);
      UtilizationsStep(selected, i);
      BucketCountStep(prefixData, utilData, warningThreshold, criticalThreshold);
      prefixData := prefixData + [utilData];
      totalPrefixes := totalPrefixes + 1;
      var utilization := UtilValue(utilData);
      if utilization >= criticalThreshold {
        criticalCount := criticalCount + 1;
      } else if utilization >= warningThreshold {
        warningCount := warningCount + 1;
      } else {
        healthyCount := healthyCount + 1;
      }
    }
    assert selected[..|selected|] == selected;
    BucketCountsAddUp(prefixData, warningThreshold, criticalThreshold);
    prefixData := SortList(prefixData, DescendingUtil);
    summary := Summary(totalPrefixes, warningCount, criticalCount, healthyCount, prefixData,
                       warningThreshold, criticalThreshold);
  }

  /** The summary's prefix list holds every computed entry once, highest
      utilisation first, entries of equal utilisation in database order. */
  lemma SummaryOrder(entries: seq<Utilization>, k: real)
    ensures SortedBy(InsertionSort(entries, DescendingUtil), DescendingUtil)
    ensures multiset(InsertionSort(entries, DescendingUtil)) == multiset(entries)
    ensures KeyClass(InsertionSort(entries, DescendingUtil), DescendingUtil, k) == KeyClass(entries, DescendingUtil, k)
  {
    SortSorted(entries, DescendingUtil);
    SortPermutation(entries, DescendingUtil);
    SortStable(entries, DescendingUtil, k);
  }

  /** The VLANs of one site, each given by the number of interfaces it has. */
  datatype SiteVlans = SiteVlans(site: SiteRef, vlanInterfaceCounts: seq<nat>)

  /** The VLANs with at least one interface. */
  function UsedVlans(counts: seq<nat>): (r: nat)
    ensures r <= |counts|
  {
    if |counts| == 0 then 0
    else UsedVlans(counts[..|counts| - 1]) + (if counts[|counts| - 1] > 0 then 1 else 0)
  }

  /** `interface_count__gt=0`: a VLAN is used when some interface carries it. */
  predicate IsUsed(interfaceCount: nat)
  {
    interfaceCount > 0
  }

  /** The used VLANs are those with a positive interface count: none are used
      iff no VLAN has an interface, all are used iff every VLAN has one. */
  lemma {:induction false} UsedVlansCounted(counts: seq<nat>)
    ensures UsedVlans(counts) == Count(counts, IsUsed)
    ensures UsedVlans(counts) == 0 <==> forall i :: 0 <= i < |counts| ==> counts[i] == 0
    ensures UsedVlans(counts) == |counts| <==> forall i :: 0 <= i < |counts| ==> counts[i] > 0
  {
    if |counts| > 0 {
      var init := counts[..|counts| - 1];
      UsedVlansCounted(init);
      FilterStep(init, counts[|counts| - 1], IsUsed);
      assert init + [counts[|counts| - 1]] == counts;
      if UsedVlans(counts) == 0 {
        forall i | 0 <= i < |counts| ensures counts[i] == 0 {
          if i < |init| { assert counts[i] == init[i]; }
        }
      }
      if UsedVlans(counts) == |counts| {
        forall i | 0 <= i < |counts| ensures counts[i] > 0 {
          if i < |init| { assert counts[i] == init[i]; }
        }
      }
    }
  }

  datatype VlanUsage = VlanUsage(
    site: string,
    siteId: int,
    totalVlans: nat,
    usedVlans: nat,
    availableVlans: int,
    utilization: real)

  function SiteVlanUsage(s: SiteVlans): VlanUsage
  {
    var total, used := |s.vlanInterfaceCounts|, UsedVlans(s.vlanInterfaceCounts);
    VlanUsage(s.site.name, s.site.id, total, used, total - used, Round2(Percent(used, total, 0.0)))
  }

  /** The rows of `calculate_vlan_utilization` before sorting: one per site
      that has VLANs, in site order. */
  function VlanEntries(sites: seq<SiteVlans>): (r: seq<VlanUsage>)
    ensures |r| <= |sites|
  {
    if |sites| == 0 then []
    else
      var s := sites[|sites| - 1];
      VlanEntries(sites[..|sites| - 1]) + (if |s.vlanInterfaceCounts| > 0 then [SiteVlanUsage(s)] else [])
  }

  /** A row is a site with VLANs: available is total minus used, and the
      utilisation is a percentage. */
  predicate WellFormedVlanRow(v: VlanUsage)
  {
    && v.totalVlans > 0
    && v.usedVlans <= v.totalVlans
    && v.availableVlans == v.totalVlans - v.usedVlans
    && 0.0 <= v.utilization <= 100.0
  }

  /** Every row is well formed, and a site with VLANs always has a row. */
  lemma {:induction false} VlanEntriesShape(sites: seq<SiteVlans>)
    ensures forall i :: 0 <= i < |VlanEntries(sites)| ==> WellFormedVlanRow(VlanEntries(sites)[i])
    ensures forall i :: 0 <= i < |sites| && |sites[i].vlanInterfaceCounts| > 0 ==>
              SiteVlanUsage(sites[i]) in VlanEntries(sites)
  {
    if |sites| > 0 {
      var init, s := sites[..|sites| - 1], sites[|sites| - 1];
      VlanEntriesShape(init);
      if |s.vlanInterfaceCounts| > 0 {
        var total, used := |s.vlanInterfaceCounts|, UsedVlans(s.vlanInterfaceCounts);
        RoundWithin(Percent(used, total, 0.0));
      }
      forall i | 0 <= i < |sites| && |sites[i].vlanInterfaceCounts| > 0
        ensures SiteVlanUsage(sites[i]) in VlanEntries(sites)
      {
        if i < |sites| - 1 {
          assert sites[i] == init[i];
        }
      }
    }
  }

  /** Every row is the usage row of a site that has VLANs. */
  lemma {:induction false} VlanEntriesFromSites(sites: seq<SiteVlans>)
    ensures forall v :: v in VlanEntries(sites) ==>
              exists j :: 0 <= j < |sites| && |sites[j].vlanInterfaceCounts| > 0 && v == SiteVlanUsage(sites[j])
  {
    if |sites| > 0 {
      var init, s := sites[..|sites| - 1], sites[|sites| - 1];
      VlanEntriesFromSites(init);
      forall v | v in VlanEntries(sites)
        ensures exists j :: 0 <= j < |sites| && |sites[j].vlanInterfaceCounts| > 0 && v == SiteVlanUsage(sites[j])
      {
        if v in VlanEntries(init) {
          var j :| 0 <= j < |init| && |init[j].vlanInterfaceCounts| > 0 && v == SiteVlanUsage(init[j]);
          assert sites[j] == init[j];
        } else {
          assert v == SiteVlanUsage(sites[|sites| - 1]);
        }
      }
    }
  }

  function DescendingVlanUtil(v: VlanUsage): real
  {
    -v.utilization
  }

  /** `calculate_vlan_utilization`. */
  method VlanUtilization(sites: seq<SiteVlans>) returns (vlanData: seq<VlanUsage>)
    ensures vlanData == InsertionSort(VlanEntries(sites), DescendingVlanUtil)
    ensures SortedBy(vlanData, DescendingVlanUtil)
    ensures multiset(vlanData) == multiset(VlanEntries(sites))
    ensures forall i :: 0 <= i < |vlanData| ==> WellFormedVlanRow(vlanData[i])
  {
    vlanData := [];
    for i := 0 to |sites|
      invariant vlanData == VlanEntries(sites[..i])
    {
      var site := sites[i];
      assert sites[..i + 1][..i] == sites[..i];
      var totalVlans := |site.vlanInterfaceCounts|;
      if totalVlans > 0 {
        var usedVlans := UsedVlans(site.vlanInterfaceCounts);
        var utilization := Percent(usedVlans, totalVlans, 0.0);
        vlanData := vlanData + [VlanUsage(site.site.name, site.site.id, totalVlans, usedVlans,
                                          totalVlans - usedVlans, Round2(utilization))];
      }
    }
    assert sites[..|sites|] == sites;
    var entries := vlanData;
    VlanEntriesShape(sites);
    vlanData := SortList(entries, DescendingVlanUtil);
    SortSorted(entries, DescendingVlanUtil);
    SortSameElements(entries, DescendingVlanUtil);
    SortPermutation(entries, DescendingVlanUtil);
  }

  /** The largest number of days a `timedelta` holds. */
  const MaxTimedeltaDays := 999999999

  /** `timedelta(weeks=w)` keeps the whole days of `7w`, whose magnitude may
      not pass `MaxTimedeltaDays`; beyond that it raises `OverflowError`. */
  predicate TimedeltaFits(weeks: real)
  {
    -(MaxTimedeltaDays as real) <= 7.0 * weeks < (MaxTimedeltaDays + 1) as real
  }

  /** The instants a `datetime` can hold (years 1 to 9999), on the clock of `now`. */
  datatype DatetimeRange = DatetimeRange(earliest: int, latest: int)

  /** `calculate_subnet_exhaustion_date`: `None` for a non-positive rate,
      otherwise the instant `available / rate` weeks after `now`. The lookup
      of `available_ips` comes first, and the error record has no such key,
      so a prefix whose counting failed raises `KeyError`; a `timedelta` too
      long, or an instant outside the `datetime` range, raises `OverflowError`. */
  function SubnetExhaustionDate(p: Prefix, growthRate: real, now: int, range: DatetimeRange)
    : (r: Result<Option<real>>)
    ensures p.counts.Err? ==> r == Err("KeyError: 'available_ips'")
    ensures p.counts.Ok? && growthRate <= 0.0 ==> r == Ok(None)
    ensures p.counts.Ok? && growthRate > 0.0 ==>
              var weeks := (p.counts.value.total - p.counts.value.used) as real / growthRate;
              var instant := now as real + WeeksInSeconds(weeks);
              && (r.Ok? <==> TimedeltaFits(weeks) && range.earliest as real <= instant <= range.latest as real)
              && (r.Ok? ==> r.value == Some(instant))
  {
    var util := PrefixUtilization(p);
    if util.Failed? then Err("KeyError: 'available_ips'")
    else if growthRate <= 0.0 then Ok(None)
    else
      var weeksRemaining := util.availableIps as real / growthRate;
      if !TimedeltaFits(weeksRemaining) then Err("OverflowError: timedelta")
      else
        var exhaustionDate := now as real + WeeksInSeconds(weeksRemaining);
        if exhaustionDate < range.earliest as real || exhaustionDate > range.latest as real
        then Err("OverflowError: date value out of range")
        else Ok(Some(exhaustionDate))
  }

  /** With addresses left, a faster rate never gives a later exhaustion
      instant, and never overflows where a slower rate does not. */
  lemma ExhaustionDateAntitone(p: Prefix, slow: real, fast: real, now: int, range: DatetimeRange)
    requires p.counts.Ok? && p.counts.value.used <= p.counts.value.total
    requires 0.0 < slow <= fast
    requires range.earliest <= now
    requires SubnetExhaustionDate(p, slow, now, range).Ok?
    ensures SubnetExhaustionDate(p, fast, now, range).Ok?
    ensures SubnetExhaustionDate(p, fast, now, range).value.value <= SubnetExhaustionDate(p, slow, now, range).value.value
  {
    var available := (p.counts.value.total - p.counts.value.used) as real;
    DivideAntitone(available, slow, fast);
    assert 0.0 <= available / fast;
  }

  /** A prefix of 65536 addresses with 65534 free, consumed at 0.1 per week, is due in
      655340 weeks, a `timedelta` that fits, at an instant past the range
      when the range ends within that time of `now`. */
  lemma SlowGrowthOverflows(p: Prefix, now: int, range: DatetimeRange)
    requires p.counts == Ok(IpCounts(65536, 2))
    requires range.earliest <= now && range.latest < now + 396349632000
    ensures SubnetExhaustionDate(p, 0.1, now, range).Err?
  {
    assert 65534.0 / 0.1 == 655340.0;
  }

  lemma DivideAntitone(a: real, x: real, y: real)
    requires a >= 0.0 && 0.0 < x <= y
    ensures a / y <= a / x
  {
    var p, q := a / x, a / y;
    assert p * x == a && q * y == a;
    assert p >= 0.0;
    assert p * x <= p * y;
    assert q * y <= p * y;
  }
}
