/** The network topology status widget: cable health, interface status,
    inter-site connectivity and the overall health verdict. */
module Topology {
  import opened Common
  import opened Sorting
  import opened Inventory
  import opened Validators

  // ---------------------------------------------------------------------------
  // Cable health

  datatype CableHealth = CableHealth(
    total: nat,
    valid: nat,
    invalid: nat,
    invalidCables: seq<InvalidCable>,
    healthPercentage: real)

  /** `round(valid / total * 100, 1) if total > 0 else 100` */
  function CableHealthPercentage(valid: nat, total: nat): real
  {
    if total > 0 then Round1(Percent(valid, total, 100.0)) else 100.0
  }

  /** `get_cable_health`: a cable is valid when both sides are terminated and
      it has a type; the first ten invalid cables are listed. */
  method GetCableHealth(cables: seq<Cable>) returns (h: CableHealth)
    ensures h.total == |cables|
    ensures h.valid == Count(cables, CableValid)
    ensures h.invalid == Count(cables, IsInvalid)
    ensures h.valid + h.invalid == h.total
    ensures h.invalidCables == Take(Collect(cables, InvalidEntry), 10)
    ensures h.healthPercentage == CableHealthPercentage(h.valid, h.total)
    ensures 0.0 <= h.healthPercentage <= 100.0
  {
    var validCables := 0;
    var invalidCables: seq<InvalidCable> := [];
    for k := 0 to |cables|
      invariant validCables == Count(cables[..k], CableValid)
      invariant invalidCables == Collect(cables[..k], InvalidEntry)
    {
      var entry := CheckCable(cables[k]);
      CableStep(cables, k);
      if entry.None? {
        validCables := validCables + 1;
      } else {
        invalidCables := invalidCables + [entry.value];
      }
    }
    assert cables[..|cables|] == cables;
    CableCounts(cables);
    CableHealthBounds(validCables, |cables|);
    h := CableHealth(|cables|, validCables, |invalidCables|, Take(invalidCables, 10),
      CableHealthPercentage(validCables, |cables|));
  }

  lemma CableStep(cables: seq<Cable>, k: nat)
    requires k < |cables|
    ensures Count(cables[..k + 1], CableValid) ==
      Count(cables[..k], CableValid) + (if InvalidEntry(cables[k]).None? then 1 else 0)
    ensures Collect(cables[..k + 1], InvalidEntry) == Collect(cables[..k], InvalidEntry) + AsList(InvalidEntry(cables[k]))
  {
    assert cables[..k + 1] == cables[..k] + [cables[k]];
    FilterStep(cables[..k], cables[k], CableValid);
    CollectStep(cables[..k], cables[k], InvalidEntry);
    InvalidEntryExact(cables[k]);
  }

  /** The health percentage is a percentage, and 100 when every cable is valid. */
  lemma CableHealthBounds(valid: nat, total: nat)
    requires valid <= total
    ensures 0.0 <= CableHealthPercentage(valid, total) <= 100.0
    ensures valid == total ==> CableHealthPercentage(valid, total) == 100.0
  {
    if total > 0 {
      RoundWithin(Percent(valid, total, 100.0));
      RoundInteger(100);
    }
  }

  // ---------------------------------------------------------------------------
  // Interface status

  /** One row of `values('enabled').annotate(count=Count('id'))`. */
  datatype StatusRow = StatusRow(enabled: bool, count: nat)

  function EnabledIs(enabled: bool): Interface -> bool
  {
    (i: Interface) => i.enabled == enabled
  }

  predicate OnDevice(i: Interface)
  {
    i.deviceId.Some?
  }

  predicate Cabled(i: Interface)
  {
    i.hasCable
  }

  /** The grouped counts: one row for each `enabled` value that occurs. */
  function StatusCounts(interfaces: seq<Interface>): seq<StatusRow>
  {
    (if Count(interfaces, EnabledIs(false)) > 0 then [StatusRow(false, Count(interfaces, EnabledIs(false)))] else []) +
    (if Count(interfaces, EnabledIs(true)) > 0 then [StatusRow(true, Count(interfaces, EnabledIs(true)))] else [])
  }

  /** What the loop over the rows leaves in a counter: the count of the last
      row for that value, or 0 when there is none. */
  function LastCount(rows: seq<StatusRow>, enabled: bool): nat
  {
    if |rows| == 0 then 0
    else if rows[|rows| - 1].enabled == enabled then rows[|rows| - 1].count
    else LastCount(rows[..|rows| - 1], enabled)
  }

  /** Reading the grouped rows gives the count of each value. */
  lemma StatusCountsRead(interfaces: seq<Interface>)
    ensures LastCount(StatusCounts(interfaces), true) == Count(interfaces, EnabledIs(true))
    ensures LastCount(StatusCounts(interfaces), false) == Count(interfaces, EnabledIs(false))
  {
    var rows := StatusCounts(interfaces);
    if |rows| == 2 {
      assert rows[..1][..0] == [];
    }
  }

  datatype InterfaceStatus = InterfaceStatus(
    total: nat,
    enabled: nat,
    disabled: nat,
    connected: nat,
    disconnected: int,
    utilization: real)

  /** `get_interface_status` over the interfaces that belong to a device. */
  method GetInterfaceStatus(allInterfaces: seq<Interface>) returns (s: InterfaceStatus)
    ensures var interfaces := Filter(allInterfaces, OnDevice);
      && s.enabled == Count(interfaces, EnabledIs(true))
      && s.disabled == Count(interfaces, EnabledIs(false))
      && s.total == |interfaces|
      && s.connected == Count(interfaces, Cabled)
      && s.disconnected == s.total - s.connected >= 0
      && s.utilization == (if s.total > 0 then Round1(Percent(s.connected, s.total, 0.0)) else 0.0)
      && 0.0 <= s.utilization <= 100.0
  {
    var interfaces := Filter(allInterfaces, OnDevice);
    var statusCounts := StatusCounts(interfaces);
    var enabled, disabled := 0, 0;
    for k := 0 to |statusCounts|
      invariant enabled == LastCount(statusCounts[..k], true)
      invariant disabled == LastCount(statusCounts[..k], false)
    {
      var status := statusCounts[k];
      assert statusCounts[..k + 1][..k] == statusCounts[..k];
      if status.enabled {
        enabled := status.count;
      } else {
        disabled := status.count;
      }
    }
    assert statusCounts[..|statusCounts|] == statusCounts;
    StatusCountsRead(interfaces);
    var total := enabled + disabled;
    EnabledSplit(interfaces);
    var connected := Count(interfaces, Cabled);
    FilterMembers(interfaces, Cabled);
    var utilization := 0.0;
    if total > 0 {
      utilization := Round1(connected as real / total as real * 100.0);
      assert connected as real / total as real * 100.0 == Percent(connected, total, 0.0);
      RoundWithin(Percent(connected, total, 0.0));
    }
    s := InterfaceStatus(total, enabled, disabled, connected, total - connected, utilization);
  }

  /** Enabled and disabled interfaces split the list. */
  lemma EnabledSplit(interfaces: seq<Interface>)
    ensures Count(interfaces, EnabledIs(true)) + Count(interfaces, EnabledIs(false)) == |interfaces|
  {
    CountSplit(interfaces, EnabledIs(true), EnabledIs(false));
  }

  // ---------------------------------------------------------------------------
  // Site connectivity

  /** A far end on a device at another site. */
  function IsRemote(site: SiteRef): Termination -> bool
  {
    (t: Termination) => t.OnDevice? && t.deviceSite.Some? && t.deviceSite.value.id != site.id
  }

  /** The B-side ends the interface's cable reaches, if it has one. */
  function CableEnds(i: Interface): seq<Termination>
  {
    if i.hasCable then i.cableBEnds else []
  }

  function EndsOfInterfaces(interfaces: seq<Interface>): seq<Termination>
  {
    if |interfaces| == 0 then []
    else EndsOfInterfaces(interfaces[..|interfaces| - 1]) + CableEnds(interfaces[|interfaces| - 1])
  }

  function OfDevice(d: Device): Interface -> bool
  {
    (i: Interface) => i.deviceId == Some(d.id)
  }

  /** The far ends of the cables of the given devices' interfaces, device by
      device and interface by interface. */
  function EndsOfDevices(devices: seq<Device>, interfaces: seq<Interface>): seq<Termination>
  {
    if |devices| == 0 then []
    else
      EndsOfDevices(devices[..|devices| - 1], interfaces) +
      EndsOfInterfaces(Filter(interfaces, OfDevice(devices[|devices| - 1])))
  }

  /** The names of the remote sites the ends reach. */
  function RemoteNames(site: SiteRef, ends: seq<Termination>): set<string>
  {
    if |ends| == 0 then {}
    else
      var t := ends[|ends| - 1];
      RemoteNames(site, ends[..|ends| - 1]) + (if IsRemote(site)(t) then {t.deviceSite.value.name} else {})
  }

  lemma {:induction false} RemoteNamesConcat(site: SiteRef, a: seq<Termination>, b: seq<Termination>)
    ensures RemoteNames(site, a + b) == RemoteNames(site, a) + RemoteNames(site, b)
    decreases |b|
  {
    if |b| == 0 {
      assert a + b == a;
    } else {
      assert (a + b)[..|a + b| - 1] == a + b[..|b| - 1];
      RemoteNamesConcat(site, a, b[..|b| - 1]);
    }
  }

  /** A name is listed exactly when some remote end is at a site of that name. */
  lemma {:induction false} RemoteNamesExact(site: SiteRef, ends: seq<Termination>, name: string)
    ensures name in RemoteNames(site, ends) <==>
      exists i :: 0 <= i < |ends| && IsRemote(site)(ends[i]) && ends[i].deviceSite.value.name == name
  {
    if |ends| > 0 {
      var init := ends[..|ends| - 1];
      RemoteNamesExact(site, init, name);
      if exists i :: 0 <= i < |init| && IsRemote(site)(init[i]) && init[i].deviceSite.value.name == name {
        var i :| 0 <= i < |init| && IsRemote(site)(init[i]) && init[i].deviceSite.value.name == name;
        assert ends[i] == init[i];
      }
      if exists i :: 0 <= i < |ends| && IsRemote(site)(ends[i]) && ends[i].deviceSite.value.name == name {
        var i :| 0 <= i < |ends| && IsRemote(site)(ends[i]) && ends[i].deviceSite.value.name == name;
        if i < |init| {
          assert init[i] == ends[i];
        }
      }
    }
  }

  /** Every connected site needs at least one link: there are never more
      distinct remote sites than inter-site links. */
  lemma {:induction false} RemoteNamesBound(site: SiteRef, ends: seq<Termination>)
    ensures |RemoteNames(site, ends)| <= Count(ends, IsRemote(site))
  {
    if |ends| > 0 {
      RemoteNamesBound(site, ends[..|ends| - 1]);
    }
  }

  function AtSite(site: SiteRef): Device -> bool
  {
    (d: Device) => d.site.Some? && d.site.value.id == site.id
  }

  /** `Interface.objects.filter(device__in=site_devices)` */
  function OnDevices(siteDevices: seq<Device>): Interface -> bool
  {
    (i: Interface) => exists d :: d in siteDevices && i.deviceId == Some(d.id)
  }

  datatype SiteConnectivity = SiteConnectivity(
    site: string,
    siteId: int,
    totalInterfaces: nat,
    interSiteLinks: nat,
    connectedToSites: set<string>,
    connectionCount: nat)

  /** The entry of a site, or none when it has neither interfaces nor
      inter-site links. */
  function SiteEntry(devices: seq<Device>, interfaces: seq<Interface>): SiteRef -> Option<SiteConnectivity>
  {
    (site: SiteRef) =>
      var siteDevices := Filter(devices, AtSite(site));
      var ends := EndsOfDevices(siteDevices, interfaces);
      var totalInterfaces := Count(interfaces, OnDevices(siteDevices));
      var links := Count(ends, IsRemote(site));
      if totalInterfaces > 0 || links > 0 then
        Some(SiteConnectivity(site.name, site.id, totalInterfaces, links,
          RemoteNames(site, ends), |RemoteNames(site, ends)|))
      else None
  }

  /** The innermost loop: the far ends of one cable. */
  method CountRemoteEnds(site: SiteRef, ends: seq<Termination>, links: nat, names: set<string>)
    returns (links': nat, names': set<string>)
    ensures links' == links + Count(ends, IsRemote(site))
    ensures names' == names + RemoteNames(site, ends)
  {
    links', names' := links, names;
    for k := 0 to |ends|
      invariant links' == links + Count(ends[..k], IsRemote(site))
      invariant names' == names + RemoteNames(site, ends[..k])
    {
      var termination := ends[k];
      assert ends[..k + 1] == ends[..k] + [termination];
      FilterStep(ends[..k], termination, IsRemote(site));
      assert ends[..k + 1][..k] == ends[..k];
      if termination.OnDevice? {
        if termination.deviceSite.Some? && termination.deviceSite.value.id != site.id {
          links' := links' + 1;
          names' := names' + {termination.deviceSite.value.name};
        }
      }
    }
    assert ends[..|ends|] == ends;
  }

  /** The middle loop: the interfaces of one device, and the far ends of the
      cable on each. */
  method CountDeviceLinks(site: SiteRef, deviceInterfaces: seq<Interface>, links: nat, names: set<string>)
    returns (links': nat, names': set<string>)
    ensures links' == links + Count(EndsOfInterfaces(deviceInterfaces), IsRemote(site))
    ensures names' == names + RemoteNames(site, EndsOfInterfaces(deviceInterfaces))
  {
    links', names' := links, names;
    for m := 0 to |deviceInterfaces|
      invariant links' == links + Count(EndsOfInterfaces(deviceInterfaces[..m]), IsRemote(site))
      invariant names' == names + RemoteNames(site, EndsOfInterfaces(deviceInterfaces[..m]))
    {
      var interface := deviceInterfaces[m];
      ghost var seen := EndsOfInterfaces(deviceInterfaces[..m]);
      assert deviceInterfaces[..m + 1][..m] == deviceInterfaces[..m];
      FilterConcat(seen, CableEnds(interface), IsRemote(site));
      RemoteNamesConcat(site, seen, CableEnds(interface));
      if interface.hasCable {
        links', names' := CountRemoteEnds(site, interface.cableBEnds, links', names');
      }
    }
    assert deviceInterfaces[..|deviceInterfaces|] == deviceInterfaces;
  }

  /** The two outer loops for one site: every interface of every device at the
      site, and the far ends of the cable on it. */
  method SiteLinks(site: SiteRef, siteDevices: seq<Device>, interfaces: seq<Interface>)
    returns (links: nat, names: set<string>)
    ensures links == Count(EndsOfDevices(siteDevices, interfaces), IsRemote(site))
    ensures names == RemoteNames(site, EndsOfDevices(siteDevices, interfaces))
  {
    links, names := 0, {};
    for j := 0 to |siteDevices|
      invariant links == Count(EndsOfDevices(siteDevices[..j], interfaces), IsRemote(site))
      invariant names == RemoteNames(site, EndsOfDevices(siteDevices[..j], interfaces))
    {
      var device := siteDevices[j];
      var deviceInterfaces := Filter(interfaces, OfDevice(device));
      ghost var before := EndsOfDevices(siteDevices[..j], interfaces);
      assert siteDevices[..j + 1][..j] == siteDevices[..j];
      FilterConcat(before, EndsOfInterfaces(deviceInterfaces), IsRemote(site));
      RemoteNamesConcat(site, before, EndsOfInterfaces(deviceInterfaces));
      links, names := CountDeviceLinks(site, deviceInterfaces, links, names);
    }
    assert siteDevices[..|siteDevices|] == siteDevices;
  }

  /** The body of the loop over the sites: the interfaces and inter-site
      links of one site, and its entry when it has either. */
  method ConnectivityOf(site: SiteRef, devices: seq<Device>, interfaces: seq<Interface>)
    returns (entry: Option<SiteConnectivity>)
    ensures entry == SiteEntry(devices, interfaces)(site)
  {
    var siteDevices := Filter(devices, AtSite(site));
    var totalInterfaces := Count(interfaces, OnDevices(siteDevices));
    var interSiteCables, connectedSites := SiteLinks(site, siteDevices, interfaces);
    entry := None;
    if totalInterfaces > 0 || interSiteCables > 0 {
      entry := Some(SiteConnectivity(site.name, site.id, totalInterfaces, interSiteCables, connectedSites,
                                     |connectedSites|));
    }
  }

  /** `analyze_site_connectivity`: one entry per site with interfaces or
      inter-site links, by inter-site links, most first. */
  method AnalyzeSiteConnectivity(sites: seq<SiteRef>, devices: seq<Device>, interfaces: seq<Interface>)
    returns (connectivityMap: seq<SiteConnectivity>)
    ensures connectivityMap == InsertionSort(Collect(sites, SiteEntry(devices, interfaces)), DescendingLinks)
  {
    connectivityMap := [];
    for k := 0 to |sites|
      invariant connectivityMap == Collect(sites[..k], SiteEntry(devices, interfaces))
    {
      var entry := ConnectivityOf(sites[k], devices, interfaces);
      CollectPrefix(sites, k, SiteEntry(devices, interfaces));
      if entry.Some? {
        connectivityMap := connectivityMap + [entry.value];
      }
    }
    assert sites[..|sites|] == sites;
    connectivityMap := SortList(connectivityMap, DescendingLinks);
  }

  /** `reverse=True` on `inter_site_links`: the stable sort on the negated key. */
  function DescendingLinks(e: SiteConnectivity): real
  {
    -(e.interSiteLinks as real)
  }

  /** A site is listed exactly when it has interfaces or inter-site links; its
      connection count is the number of distinct remote sites and never
      exceeds its links; the list is ordered by links, most first, keeping the
      site order among equal counts. */
  lemma SiteConnectivityShape(sites: seq<SiteRef>, devices: seq<Device>, interfaces: seq<Interface>, site: SiteRef)
    ensures var listed := InsertionSort(Collect(sites, SiteEntry(devices, interfaces)), DescendingLinks);
      var e := SiteEntry(devices, interfaces)(site);
      && (site in sites && e.Some? ==> e.value in listed)
      && (forall x :: x in listed ==> exists i :: 0 <= i < |sites| && SiteEntry(devices, interfaces)(sites[i]) == Some(x))
      && (e.Some? ==>
            && (e.value.totalInterfaces > 0 || e.value.interSiteLinks > 0)
            && e.value.connectionCount == |e.value.connectedToSites| <= e.value.interSiteLinks)
      && SortedBy(listed, DescendingLinks)
      && multiset(listed) == multiset(Collect(sites, SiteEntry(devices, interfaces)))
  {
    var collected := Collect(sites, SiteEntry(devices, interfaces));
    var listed := InsertionSort(collected, DescendingLinks);
    SortSorted(collected, DescendingLinks);
    SortPermutation(collected, DescendingLinks);
    var e := SiteEntry(devices, interfaces)(site);
    if site in sites && e.Some? {
      var i :| 0 <= i < |sites| && sites[i] == site;
      CollectMembers(sites, SiteEntry(devices, interfaces), e.value);
      assert e.value in multiset(collected);
    }
    forall x | x in listed
      ensures exists i :: 0 <= i < |sites| && SiteEntry(devices, interfaces)(sites[i]) == Some(x)
    {
      assert x in multiset(listed);
      CollectMembers(sites, SiteEntry(devices, interfaces), x);
    }
    if e.Some? {
      var siteDevices := Filter(devices, AtSite(site));
      RemoteNamesBound(site, EndsOfDevices(siteDevices, interfaces));
    }
  }

  // ---------------------------------------------------------------------------
  // Overall health

  datatype HealthStatus = Healthy | Warning | Critical

  /** `(cable_health_pct + interface_util_pct) / 2` */
  function OverallHealth(cablePct: real, interfacePct: real): real
  {
    (cablePct + interfacePct) / 2.0
  }

  function StatusOf(overall: real): HealthStatus
  {
    if overall >= 90.0 then Healthy else if overall >= 70.0 then Warning else Critical
  }

  /** The status bands: healthy from 90, warning from 70, critical below; a
      better health never gives a worse status. */
  lemma StatusBands(overall: real)
    ensures StatusOf(overall) == Healthy <==> overall >= 90.0
    ensures StatusOf(overall) == Warning <==> 70.0 <= overall < 90.0
    ensures StatusOf(overall) == Critical <==> overall < 70.0
  {
  }

  function Badness(s: HealthStatus): nat
  {
    match s
    case Healthy => 0
    case Warning => 1
    case Critical => 2
  }

  lemma StatusMonotone(a: real, b: real)
    requires a <= b
    ensures Badness(StatusOf(b)) <= Badness(StatusOf(a))
  {
  }

  /** The overall-health lines of `get_context_data`: the mean of the two
      percentages, rounded for display and classified before rounding. */
  method Classify(cablePct: real, interfacePct: real) returns (overall: real, status: HealthStatus)
    requires 0.0 <= cablePct <= 100.0 && 0.0 <= interfacePct <= 100.0
    ensures overall == Round1(OverallHealth(cablePct, interfacePct))
    ensures status == StatusOf(OverallHealth(cablePct, interfacePct))
    ensures 0.0 <= overall <= 100.0
  {
    var mean := (cablePct + interfacePct) / 2.0;
    if mean >= 90.0 {
      status := Healthy;
    } else if mean >= 70.0 {
      status := Warning;
    } else {
      status := Critical;
    }
    RoundWithin(mean);
    overall := Round1(mean);
  }

  datatype TopologyContext = TopologyContext(
    overallHealth: real,
    healthStatus: HealthStatus,
    cableHealth: CableHealth,
    interfaceStatus: InterfaceStatus,
    siteConnectivity: seq<SiteConnectivity>)

  /** `get_context_data`: the three analyses, the overall health rounded for
      display but classified unrounded, and the first fifteen sites. */
  method TopologyContextData(cables: seq<Cable>, sites: seq<SiteRef>, devices: seq<Device>, interfaces: seq<Interface>)
    returns (ctx: TopologyContext)
    ensures ctx.healthStatus == StatusOf(OverallHealth(ctx.cableHealth.healthPercentage, ctx.interfaceStatus.utilization))
    ensures ctx.overallHealth == Round1(OverallHealth(ctx.cableHealth.healthPercentage, ctx.interfaceStatus.utilization))
    ensures 0.0 <= ctx.overallHealth <= 100.0
    ensures ctx.cableHealth.total == |cables|
    ensures ctx.cableHealth.valid == Count(cables, CableValid)
    ensures ctx.cableHealth.invalid == Count(cables, IsInvalid)
    ensures ctx.cableHealth.invalidCables == Take(Collect(cables, InvalidEntry), 10)
    ensures ctx.cableHealth.healthPercentage == CableHealthPercentage(ctx.cableHealth.valid, |cables|)
    ensures var onDevice := Filter(interfaces, OnDevice);
      && ctx.interfaceStatus.total == |onDevice|
      && ctx.interfaceStatus.enabled == Count(onDevice, EnabledIs(true))
      && ctx.interfaceStatus.disabled == Count(onDevice, EnabledIs(false))
      && ctx.interfaceStatus.connected == Count(onDevice, Cabled)
      && ctx.interfaceStatus.disconnected == |onDevice| - ctx.interfaceStatus.connected
      && ctx.interfaceStatus.utilization
         == (if |onDevice| > 0 then Round1(Percent(ctx.interfaceStatus.connected, |onDevice|, 0.0)) else 0.0)
    ensures ctx.siteConnectivity ==
      Take(InsertionSort(Collect(sites, SiteEntry(devices, interfaces)), DescendingLinks), 15)
  {
    var cableHealth := GetCableHealth(cables);
    var interfaceStatus := GetInterfaceStatus(interfaces);
    var siteConnectivity := AnalyzeSiteConnectivity(sites, devices, interfaces);
    var overall, status := Classify(cableHealth.healthPercentage, interfaceStatus.utilization);
    ctx := TopologyContext(overall, status, cableHealth, interfaceStatus, Take(siteConnectivity, 15));
  }
}
