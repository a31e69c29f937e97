/** Capacity planning of `widgets/capacity_planning.py`: growth of the
    inventory over a window of days, rack U-space grouped by site name, the
    six-month forecast, and the sites at or above the capacity threshold. */
module Capacity {
  import opened Common
  import opened Sorting
  import opened Inventory

  // ---------------------------------------------------------------------------
  // Growth metrics

  datatype Growth = Growth(total: nat, newCount: nat, perWeek: real, growthRate: real)

  datatype GrowthMetrics = GrowthMetrics(devices: Growth, prefixes: Growth, circuits: Growth)

  /** Created at or after the cutoff instant (`created__gte`). */
  function CreatedSince(cutoff: int): int -> bool
  {
    t => t >= cutoff
  }

  /** `new / weeks if weeks > 0 else 0`, where `weeks = days / 7`. */
  function PerWeek(newCount: nat, days: int): real
  {
    var weeks := days as real / 7.0;
    if weeks > 0.0 then newCount as real / weeks else 0.0
  }

  /** The growth of one kind of object over the `days` before `now`, from the
      creation instants of all objects of that kind. */
  function GrowthOf(created: seq<int>, now: int, days: int): Growth
  {
    var newCount := Count(created, CreatedSince(now - DaysInSeconds(days)));
    Growth(|created|, newCount, Round2(PerWeek(newCount, days)),
      if |created| > 0 then Round2(Percent(newCount, |created|, 0.0)) else 0.0)
  }

  /** `calculate_growth_metrics`: the same measure for devices, prefixes and
      circuits. */
  function CalculateGrowthMetrics(devices: seq<int>, prefixes: seq<int>, circuits: seq<int>, now: int, days: int): GrowthMetrics
  {
    GrowthMetrics(GrowthOf(devices, now, days), GrowthOf(prefixes, now, days), GrowthOf(circuits, now, days))
  }

  /** The weekly rate times the window is seven times the new count; a window
      of no days gives 0 without dividing. */
  lemma PerWeekRate(newCount: nat, days: int)
    ensures days > 0 ==> PerWeek(newCount, days) * days as real == 7.0 * newCount as real
    ensures days <= 0 ==> PerWeek(newCount, days) == 0.0
    ensures PerWeek(newCount, days) >= 0.0
  {
    var weeks := days as real / 7.0;
    if days > 0 {
      var rate := newCount as real / weeks;
      assert rate * weeks == newCount as real;
      assert days as real == weeks * 7.0;
      assert rate * days as real == rate * weeks * 7.0;
    }
  }

  /** New objects are some of all objects; the weekly rate is not negative; the
      growth rate is a percentage, and 0 when there is nothing. */
  lemma GrowthBounds(created: seq<int>, now: int, days: int)
    ensures GrowthOf(created, now, days).newCount <= GrowthOf(created, now, days).total
    ensures GrowthOf(created, now, days).perWeek >= 0.0
    ensures 0.0 <= GrowthOf(created, now, days).growthRate <= 100.0
    ensures |created| == 0 ==> GrowthOf(created, now, days).growthRate == 0.0
  {
    var newCount := Count(created, CreatedSince(now - DaysInSeconds(days)));
    PerWeekRate(newCount, days);
    RoundNonNegative(PerWeek(newCount, days));
    if |created| > 0 {
      RoundWithin(Percent(newCount, |created|, 0.0));
    }
  }

  /** When everything was created inside the window, the growth rate is 100%. */
  lemma AllNew(created: seq<int>, now: int, days: int)
    requires |created| > 0
    requires forall i :: 0 <= i < |created| ==> created[i] >= now - DaysInSeconds(days)
    ensures GrowthOf(created, now, days).newCount == |created|
    ensures GrowthOf(created, now, days).growthRate == 100.0
  {
    var p := CreatedSince(now - DaysInSeconds(days));
    forall i | 0 <= i < |created| ensures p(created[i]) {
    }
    FilterAll(created, p);
    RoundInteger(100);
  }

  /** A longer window counts at least as many new objects. */
  lemma WiderWindow(created: seq<int>, now: int, shorter: int, longer: int)
    requires shorter <= longer
    ensures GrowthOf(created, now, shorter).newCount <= GrowthOf(created, now, longer).newCount
  {
    CountImplies(created, CreatedSince(now - DaysInSeconds(shorter)), CreatedSince(now - DaysInSeconds(longer)));
  }

  // ---------------------------------------------------------------------------
  // Forecast

  datatype ForecastLine = ForecastLine(current: nat, forecasted: int, growth: int)

  datatype Forecast = Forecast(months: int, devices: ForecastLine, prefixes: ForecastLine, circuits: ForecastLine)

  /** `months * 4.33`: the average number of weeks in a month. */
  function ForecastWeeks(months: int): real
  {
    months as real * 4.33
  }

  /** The forecast for one kind of object: `int(total + per_week * weeks)` and
      `int(per_week * weeks)`. */
  function ForecastLineOf(g: Growth, months: int): ForecastLine
  {
    var growth := g.perWeek * ForecastWeeks(months);
    ForecastLine(g.total, Trunc(g.total as real + growth), Trunc(growth))
  }

  /** `forecast_capacity` */
  function ForecastCapacity(m: GrowthMetrics, months: int): Forecast
  {
    Forecast(months, ForecastLineOf(m.devices, months), ForecastLineOf(m.prefixes, months),
      ForecastLineOf(m.circuits, months))
  }

  /** With a non-negative rate and horizon the growth is not negative, and the
      forecast is exactly the current count plus the growth: truncating the sum
      loses nothing beyond truncating the growth. */
  lemma ForecastAddsGrowth(g: Growth, months: int)
    requires g.perWeek >= 0.0 && months >= 0
    ensures ForecastLineOf(g, months).growth >= 0
    ensures ForecastLineOf(g, months).forecasted == ForecastLineOf(g, months).current + ForecastLineOf(g, months).growth
  {
    var growth := g.perWeek * ForecastWeeks(months);
    assert growth >= 0.0;
    var whole := Trunc(growth);
    assert whole as real <= growth < whole as real + 1.0;
    assert (g.total + whole) as real <= g.total as real + growth < (g.total + whole) as real + 1.0;
  }

  /** The whole forecast: every line adds its growth to its current count, when
      the metrics come from `calculate_growth_metrics`. */
  lemma ForecastOfMetrics(devices: seq<int>, prefixes: seq<int>, circuits: seq<int>, now: int, days: int, months: nat)
    ensures var f := ForecastCapacity(CalculateGrowthMetrics(devices, prefixes, circuits, now, days), months);
      && f.devices.current == |devices| && f.devices.forecasted == |devices| + f.devices.growth
      && f.prefixes.current == |prefixes| && f.prefixes.forecasted == |prefixes| + f.prefixes.growth
      && f.circuits.current == |circuits| && f.circuits.forecasted == |circuits| + f.circuits.growth
  {
    var m := CalculateGrowthMetrics(devices, prefixes, circuits, now, days);
    GrowthBounds(devices, now, days);
    GrowthBounds(prefixes, now, days);
    GrowthBounds(circuits, now, days);
    ForecastAddsGrowth(m.devices, months);
    ForecastAddsGrowth(m.prefixes, months);
    ForecastAddsGrowth(m.circuits, months);
  }

  // ---------------------------------------------------------------------------
  // Rack utilisation by site

  /** One row of the result: a site name with its racks, U-space and use. */
  datatype SiteUsage = SiteUsage(
    site: string,
    totalRacks: int,
    totalU: int,
    usedU: real,
    utilization: real,
    availableU: real)

  /** The running totals kept per site name while the racks are walked. */
  datatype Tally = Tally(racks: int, totalU: int, usedU: real)

  function RackSite(r: Rack): string
  {
    SiteName(r.site)
  }

  /** The racks whose site name is `name`, in order. */
  function RacksAt(racks: seq<Rack>, name: string): seq<Rack>
  {
    if |racks| == 0 then []
    else RacksAt(racks[..|racks| - 1], name) + (if RackSite(racks[|racks| - 1]) == name then [racks[|racks| - 1]] else [])
  }

  /** Every rack counts once. */
  function One(r: Rack): int
  {
    1
  }

  /** `rack.u_height` when it is non-zero: only such racks add U-space. */
  function RackU(r: Rack): int
  {
    if r.uHeight != 0 then r.uHeight else 0
  }

  /** The height a device takes: its type's height when it has a type with a
      non-zero height. */
  function DeviceU(d: RackedDevice): real
  {
    if d.typeUHeight.Some? && d.typeUHeight.value != 0.0 then d.typeUHeight.value else 0.0
  }

  function HeightSum(devices: seq<RackedDevice>): real
  {
    if |devices| == 0 then 0.0 else HeightSum(devices[..|devices| - 1]) + DeviceU(devices[|devices| - 1])
  }

  /** `Device.objects.filter(rack=rack)` */
  function DevicesIn(devices: seq<RackedDevice>, rackId: int): seq<RackedDevice>
  {
    if |devices| == 0 then []
    else
      DevicesIn(devices[..|devices| - 1], rackId) +
      (if devices[|devices| - 1].rackId == Some(rackId) then [devices[|devices| - 1]] else [])
  }

  /** The U-space the devices of a rack take, counted only for racks with a
      non-zero height. */
  function RackUsed(r: Rack, devices: seq<RackedDevice>): real
  {
    if r.uHeight != 0 then HeightSum(DevicesIn(devices, r.id)) else 0.0
  }

  function UsedSum(racks: seq<Rack>, devices: seq<RackedDevice>): real
  {
    if |racks| == 0 then 0.0 else UsedSum(racks[..|racks| - 1], devices) + RackUsed(racks[|racks| - 1], devices)
  }

  /** The totals of one site name, computed directly from its racks. */
  function TallyAt(racks: seq<Rack>, devices: seq<RackedDevice>, name: string): Tally
  {
    var here := RacksAt(racks, name);
    Tally(SumBy(here, One), SumBy(here, RackU), UsedSum(here, devices))
  }

  /** The site names in the order their first rack appears: the order of the
      dictionary's keys. */
  function SiteOrder(racks: seq<Rack>): seq<string>
  {
    Distinct(MapList(racks, RackSite))
  }

  /** `round(used / total * 100, 1)`, or 0 when the site has no U-space. */
  function Utilization(t: Tally): real
  {
    Round1(if t.totalU > 0 then t.usedU / t.totalU as real * 100.0 else 0.0)
  }

  function UsageOf(name: string, t: Tally): SiteUsage
  {
    SiteUsage(name, t.racks, t.totalU, t.usedU, Utilization(t), t.totalU as real - t.usedU)
  }

  /** One row per listed name, in the order of the names. */
  function RowsFor(racks: seq<Rack>, devices: seq<RackedDevice>, names: seq<string>): (r: seq<SiteUsage>)
    ensures |r| == |names|
    ensures forall j :: 0 <= j < |names| ==> r[j] == UsageOf(names[j], TallyAt(racks, devices, names[j]))
  {
    if |names| == 0 then []
    else
      var name := names[|names| - 1];
      RowsFor(racks, devices, names[..|names| - 1]) + [UsageOf(name, TallyAt(racks, devices, name))]
  }

  /** The rows before sorting, one per site name, in first-occurrence order. */
  function UsageRows(racks: seq<Rack>, devices: seq<RackedDevice>): seq<SiteUsage>
  {
    RowsFor(racks, devices, SiteOrder(racks))
  }

  /** `reverse=True` on `utilization` is the stable sort on its negation. */
  function DescendingUtilization(u: SiteUsage): real
  {
    -u.utilization
  }

  /** `calculate_rack_utilization`, as a value. */
  function RackUtilization(racks: seq<Rack>, devices: seq<RackedDevice>): seq<SiteUsage>
  {
    InsertionSort(UsageRows(racks, devices), DescendingUtilization)
  }

  /** One more rack adds to the totals of its own site only. */
  function Counted(t: Tally, r: Rack, devices: seq<RackedDevice>): Tally
  {
    Tally(t.racks + 1, t.totalU + RackU(r), t.usedU + RackUsed(r, devices))
  }

  lemma TallyStep(racks: seq<Rack>, r: Rack, devices: seq<RackedDevice>, name: string)
    ensures TallyAt(racks + [r], devices, name) ==
      if RackSite(r) == name then Counted(TallyAt(racks, devices, name), r, devices)
      else TallyAt(racks, devices, name)
  {
    if RackSite(r) == name {
      TallyStepOwn(racks, r, devices);
    } else {
      TallyStepOther(racks, r, devices, name);
    }
  }

  lemma TallyStepOwn(racks: seq<Rack>, r: Rack, devices: seq<RackedDevice>)
    ensures TallyAt(racks + [r], devices, RackSite(r)) == Counted(TallyAt(racks, devices, RackSite(r)), r, devices)
  {
    var here := RacksAt(racks, RackSite(r));
    RacksAtStep(racks, r, RackSite(r));
    SumsAppend(here, r, devices);
  }

  lemma TallyStepOther(racks: seq<Rack>, r: Rack, devices: seq<RackedDevice>, name: string)
    requires RackSite(r) != name
    ensures TallyAt(racks + [r], devices, name) == TallyAt(racks, devices, name)
  {
    var here := RacksAt(racks, name);
    RacksAtStep(racks, r, name);
    assert here + [] == here;
  }

  lemma SumsAppend(here: seq<Rack>, r: Rack, devices: seq<RackedDevice>)
    ensures SumBy(here + [r], One) == SumBy(here, One) + 1
    ensures SumBy(here + [r], RackU) == SumBy(here, RackU) + RackU(r)
    ensures UsedSum(here + [r], devices) == UsedSum(here, devices) + RackUsed(r, devices)
  {
    assert (here + [r])[..|here|] == here;
  }

  /** A name no rack carries has empty totals. */
  lemma {:induction false} NoRacksAt(racks: seq<Rack>, devices: seq<RackedDevice>, name: string)
    requires name !in MapList(racks, RackSite)
    ensures RacksAt(racks, name) == []
    ensures TallyAt(racks, devices, name) == Tally(0, 0, 0.0)
  {
    if |racks| > 0 {
      var init := racks[..|racks| - 1];
      assert MapList(racks, RackSite)[|racks| - 1] == RackSite(racks[|racks| - 1]);
      assert forall i :: 0 <= i < |init| ==> MapList(init, RackSite)[i] == MapList(racks, RackSite)[i];
      NoRacksAt(init, devices, name);
    }
  }

  lemma SiteOrderStep(racks: seq<Rack>, r: Rack)
    ensures MapList(racks + [r], RackSite) == MapList(racks, RackSite) + [RackSite(r)]
    ensures SiteOrder(racks + [r]) ==
      if RackSite(r) in SiteOrder(racks) then SiteOrder(racks) else SiteOrder(racks) + [RackSite(r)]
  {
    var names := MapList(racks + [r], RackSite);
    assert names == MapList(racks, RackSite) + [RackSite(r)];
    assert names[..|names| - 1] == MapList(racks, RackSite);
  }

  /** The inner loop of `calculate_rack_utilization`: the heights of the
      devices in one rack added to the site's used space. */
  method AddRackDevices(inRack: seq<RackedDevice>, used: real) returns (used': real)
    ensures used' == used + HeightSum(inRack)
  {
    used' := used;
    for k := 0 to |inRack|
      invariant used' == used + HeightSum(inRack[..k])
    {
      assert inRack[..k + 1][..k] == inRack[..k];
      var device := inRack[k];
      if device.typeUHeight.Some? && device.typeUHeight.value != 0.0 {
        used' := used' + device.typeUHeight.value;
      }
    }
    assert inRack[..|inRack|] == inRack;
  }

  /** Counting one more rack into the tally of its site keeps every tally
      equal to its direct definition. */
  lemma TalliesStep(tallies: map<string, Tally>, racks: seq<Rack>, r: Rack, devices: seq<RackedDevice>)
    requires RackSite(r) in tallies
    requires forall n :: n in tallies ==> tallies[n] == TallyAt(racks, devices, n)
    ensures var updated := tallies[RackSite(r) := Counted(tallies[RackSite(r)], r, devices)];
      forall n :: n in updated ==> updated[n] == TallyAt(racks + [r], devices, n)
  {
    var updated := tallies[RackSite(r) := Counted(tallies[RackSite(r)], r, devices)];
    forall n | n in updated
      ensures updated[n] == TallyAt(racks + [r], devices, n)
    {
      TallyStep(racks, r, devices, n);
    }
  }

  /** The body of the loop over the racks: one more rack for its site, and
      its U-space and the heights of its devices when its height is non-zero. */
  method CountRack(t: Tally, rack: Rack, devices: seq<RackedDevice>) returns (t': Tally)
    ensures t' == Counted(t, rack, devices)
  {
    var totalU, usedU := t.totalU, t.usedU;
    if rack.uHeight != 0 {
      totalU := totalU + rack.uHeight;
      usedU := AddRackDevices(DevicesIn(devices, rack.id), usedU);
    }
    t' := Tally(t.racks + 1, totalU, usedU);
  }

  /** What the dictionary holds after some racks: one tally per site name
      seen, keyed in first-occurrence order, each equal to its direct
      definition. */
  ghost predicate Grouped(racks: seq<Rack>, devices: seq<RackedDevice>, order: seq<string>, tallies: map<string, Tally>)
  {
    && order == SiteOrder(racks)
    && (forall name :: name in tallies <==> name in order)
    && (forall name :: name in tallies ==> tallies[name] == TallyAt(racks, devices, name))
  }

  /** `if site_name not in site_utilization`: a new name gets an empty entry. */
  function OpenOrder(order: seq<string>, tallies: map<string, Tally>, name: string): seq<string>
  {
    if name in tallies then order else order + [name]
  }

  function OpenTallies(tallies: map<string, Tally>, name: string): map<string, Tally>
  {
    if name in tallies then tallies else tallies[name := Tally(0, 0, 0.0)]
  }

  /** The keys after one more rack: its name is added when it is new. */
  lemma GroupKeysStep(racks: seq<Rack>, r: Rack, order: seq<string>, tallies: map<string, Tally>, t: Tally)
    requires order == SiteOrder(racks)
    requires forall name :: name in tallies <==> name in order
    ensures OpenOrder(order, tallies, RackSite(r)) == SiteOrder(racks + [r])
    ensures forall name :: name in OpenTallies(tallies, RackSite(r))[RackSite(r) := t] <==> name in OpenOrder(order, tallies, RackSite(r))
  {
    SiteOrderStep(racks, r);
  }

  /** The values after one more rack: its site's tally counts it, and a new
      name starts from nothing. */
  lemma GroupValuesStep(racks: seq<Rack>, r: Rack, devices: seq<RackedDevice>, order: seq<string>, tallies: map<string, Tally>)
    requires order == SiteOrder(racks)
    requires forall name :: name in tallies <==> name in order
    requires forall name :: name in tallies ==> tallies[name] == TallyAt(racks, devices, name)
    ensures var started := OpenTallies(tallies, RackSite(r));
      forall name :: name in started ==> started[name] == TallyAt(racks, devices, name)
  {
    if RackSite(r) !in tallies {
      NoRacksAt(racks, devices, RackSite(r));
    }
  }

  /** One iteration of the loop over the racks keeps the dictionary grouped. */
  lemma GroupStep(racks: seq<Rack>, r: Rack, devices: seq<RackedDevice>, order: seq<string>, tallies: map<string, Tally>)
    requires Grouped(racks, devices, order, tallies)
    ensures var name := RackSite(r);
      var started := OpenTallies(tallies, name);
      name in started &&
      Grouped(racks + [r], devices, OpenOrder(order, tallies, name), started[name := Counted(started[name], r, devices)])
  {
    var name := RackSite(r);
    var started := OpenTallies(tallies, name);
    GroupKeysStep(racks, r, order, tallies, Counted(started[name], r, devices));
    GroupValuesStep(racks, r, devices, order, tallies);
    TalliesStep(started, racks, r, devices);
  }

  /** The loop over the racks: after it, the dictionary holds one tally per
      site name seen, keyed in first-occurrence order. */
  method GroupBySite(racks: seq<Rack>, devices: seq<RackedDevice>) returns (order: seq<string>, tallies: map<string, Tally>)
    ensures order == SiteOrder(racks)
    ensures forall name :: name in tallies <==> name in order
    ensures forall name :: name in tallies ==> tallies[name] == TallyAt(racks, devices, name)
  {
    order, tallies := [], map[];
    for i := 0 to |racks|
      invariant Grouped(racks[..i], devices, order, tallies)
    {
      var rack := racks[i];
      var name := SiteName(rack.site);
      GroupStep(racks[..i], rack, devices, order, tallies);
      assert racks[..i + 1] == racks[..i] + [rack];
      if name !in tallies {
        tallies := tallies[name := Tally(0, 0, 0.0)];
        order := order + [name];
      }
      var t := CountRack(tallies[name], rack, devices);
      tallies := tallies[name := t];
    }
    assert racks[..|racks|] == racks;
  }

  /** The loop over the dictionary's values: a site's utilisation, rounded,
      and its free space. */
  method FinishRow(name: string, t: Tally) returns (row: SiteUsage)
    ensures row == UsageOf(name, t)
  {
    var utilization := 0.0;
    if t.totalU > 0 {
      utilization := t.usedU / t.totalU as real * 100.0;
    }
    assert utilization == if t.totalU > 0 then t.usedU / t.totalU as real * 100.0 else 0.0;
    row := SiteUsage(name, t.racks, t.totalU, t.usedU, Round1(utilization), t.totalU as real - t.usedU);
  }

  lemma RowsForStep(racks: seq<Rack>, devices: seq<RackedDevice>, names: seq<string>, j: nat)
    requires j < |names|
    ensures RowsFor(racks, devices, names[..j + 1])
            == RowsFor(racks, devices, names[..j]) + [UsageOf(names[j], TallyAt(racks, devices, names[j]))]
  {
    assert names[..j + 1][..j] == names[..j];
  }

  /** The loop over the dictionary's values, in key order. */
  method FinishRows(racks: seq<Rack>, devices: seq<RackedDevice>, order: seq<string>, tallies: map<string, Tally>)
    returns (rows: seq<SiteUsage>)
    requires forall name :: name in order ==> name in tallies
    requires forall name :: name in tallies ==> tallies[name] == TallyAt(racks, devices, name)
    ensures rows == RowsFor(racks, devices, order)
  {
    rows := [];
    for j := 0 to |order|
      invariant rows == RowsFor(racks, devices, order[..j])
    {
      var row := FinishRow(order[j], tallies[order[j]]);
      RowsForStep(racks, devices, order, j);
      rows := rows + [row];
    }
    assert order[..|order|] == order;
  }

  /** `calculate_rack_utilization`: the racks grouped by site name, each group
      finished with its utilisation and free space, then sorted by utilisation,
      highest first. */
  method CalculateRackUtilization(racks: seq<Rack>, devices: seq<RackedDevice>) returns (result: seq<SiteUsage>)
    ensures result == RackUtilization(racks, devices)
  {
    var order, tallies := GroupBySite(racks, devices);
    var rows := FinishRows(racks, devices, order, tallies);
    result := SortList(rows, DescendingUtilization);
  }

  /** The sum over the site names listed of a per-rack weight of their racks. */
  function ListedWeight(racks: seq<Rack>, names: seq<string>, w: Rack -> int): int
  {
    if |names| == 0 then 0
    else ListedWeight(racks, names[..|names| - 1], w) + SumBy(RacksAt(racks, names[|names| - 1]), w)
  }

  lemma RacksAtStep(racks: seq<Rack>, r: Rack, name: string)
    ensures RacksAt(racks + [r], name) == RacksAt(racks, name) + (if RackSite(r) == name then [r] else [])
  {
    assert (racks + [r])[..|racks|] == racks;
  }

  /** One more rack adds its weight to the listed names once, when its own site
      name is listed. */
  lemma {:induction false} ListedGrow(racks: seq<Rack>, r: Rack, names: seq<string>, w: Rack -> int)
    requires forall i, j :: 0 <= i < j < |names| ==> names[i] != names[j]
    ensures ListedWeight(racks + [r], names, w) ==
      ListedWeight(racks, names, w) + (if RackSite(r) in names then w(r) else 0)
  {
    if |names| > 0 {
      var init, last := names[..|names| - 1], names[|names| - 1];
      ListedGrow(racks, r, init, w);
      var here := RacksAt(racks, last);
      var added := if RackSite(r) == last then w(r) else 0;
      RacksAtStep(racks, r, last);
      if RackSite(r) == last {
        SumByConcat(here, [r], w);
        assert [r][..0] == [];
      } else {
        assert here + [] == here;
      }
      assert SumBy(RacksAt(racks + [r], last), w) == SumBy(here, w) + added;
      assert RackSite(r) in names <==> RackSite(r) in init || RackSite(r) == last;
      assert RackSite(r) == last ==> RackSite(r) !in init;
    }
  }

  /** A rack with a new site name is the only rack listed under that name. */
  lemma WeightNewName(racks: seq<Rack>, r: Rack, w: Rack -> int)
    requires RackSite(r) !in SiteOrder(racks)
    ensures ListedWeight(racks + [r], SiteOrder(racks) + [RackSite(r)], w) ==
      ListedWeight(racks + [r], SiteOrder(racks), w) + w(r)
  {
    var order, x := SiteOrder(racks), RackSite(r);
    assert RacksAt(racks + [r], x) == [r] by {
      NoRacksAt(racks, [], x);
      RacksAtStep(racks, r, x);
    }
    assert SumBy([r], w) == w(r) by {
      assert [r][..0] == [];
    }
    assert (order + [x])[..|order|] == order;
  }

  /** Grouping by site name neither loses nor repeats a rack: any per-rack
      weight summed site by site equals its sum over all racks. */
  lemma {:induction false} WeightByName(racks: seq<Rack>, w: Rack -> int)
    ensures ListedWeight(racks, SiteOrder(racks), w) == SumBy(racks, w)
  {
    if |racks| > 0 {
      var init, r := racks[..|racks| - 1], racks[|racks| - 1];
      assert racks == init + [r];
      var order, x := SiteOrder(init), RackSite(r);
      WeightByName(init, w);
      SiteOrderStep(init, r);
      ListedGrow(init, r, order, w);
      assert SumBy(racks, w) == SumBy(init, w) + w(r);
      if x in order {
        assert ListedWeight(racks, order, w) == SumBy(init, w) + w(r);
      } else {
        WeightNewName(init, r, w);
      }
    }
  }

  function RacksOf(u: SiteUsage): int
  {
    u.totalRacks
  }

  function UOf(u: SiteUsage): int
  {
    u.totalU
  }

  lemma {:induction false} RowsWeight(racks: seq<Rack>, devices: seq<RackedDevice>, names: seq<string>)
    ensures SumBy(RowsFor(racks, devices, names), RacksOf) == ListedWeight(racks, names, One)
    ensures SumBy(RowsFor(racks, devices, names), UOf) == ListedWeight(racks, names, RackU)
  {
    if |names| > 0 {
      var rows := RowsFor(racks, devices, names);
      RowsWeight(racks, devices, names[..|names| - 1]);
      assert rows[..|rows| - 1] == RowsFor(racks, devices, names[..|names| - 1]);
    }
  }

  lemma SumOne(racks: seq<Rack>)
    ensures SumBy(racks, One) == |racks|
  {
  }

  /** The result is sorted by utilisation, highest first, and is a
      rearrangement of one row per site name; every rack is counted in exactly
      one row, and so is every unit of rack height. */
  lemma RackUtilizationShape(racks: seq<Rack>, devices: seq<RackedDevice>)
    ensures SortedBy(RackUtilization(racks, devices), DescendingUtilization)
    ensures multiset(RackUtilization(racks, devices)) == multiset(UsageRows(racks, devices))
    ensures |RackUtilization(racks, devices)| == |SiteOrder(racks)|
    ensures SumBy(RackUtilization(racks, devices), RacksOf) == |racks|
    ensures SumBy(RackUtilization(racks, devices), UOf) == SumBy(racks, RackU)
  {
    var rows := UsageRows(racks, devices);
    SortSorted(rows, DescendingUtilization);
    SortPermutation(rows, DescendingUtilization);
    RowsWeight(racks, devices, SiteOrder(racks));
    WeightByName(racks, One);
    WeightByName(racks, RackU);
    SumOne(racks);
    SumByPermutation(rows, RackUtilization(racks, devices), RacksOf);
    SumByPermutation(rows, RackUtilization(racks, devices), UOf);
  }

  /** A name is listed exactly when some rack carries it. */
  lemma SiteListed(racks: seq<Rack>, name: string)
    ensures (exists i :: 0 <= i < |racks| && RackSite(racks[i]) == name) <==> name in SiteOrder(racks)
  {
    var names := MapList(racks, RackSite);
    if exists i :: 0 <= i < |racks| && RackSite(racks[i]) == name {
      var i :| 0 <= i < |racks| && RackSite(racks[i]) == name;
      assert names[i] == name;
    }
    if name in names {
      var i :| 0 <= i < |names| && names[i] == name;
      assert RackSite(racks[i]) == name;
    }
  }

  /** Every row of the result is the tally of its own site name. */
  lemma RowsAreTallies(racks: seq<Rack>, devices: seq<RackedDevice>)
    ensures forall k :: 0 <= k < |RackUtilization(racks, devices)| ==>
      RackUtilization(racks, devices)[k] ==
        UsageOf(RackUtilization(racks, devices)[k].site, TallyAt(racks, devices, RackUtilization(racks, devices)[k].site))
  {
    var rows := UsageRows(racks, devices);
    var result := RackUtilization(racks, devices);
    SortSameElements(rows, DescendingUtilization);
    forall k | 0 <= k < |result|
      ensures result[k] == UsageOf(result[k].site, TallyAt(racks, devices, result[k].site))
    {
      var j :| 0 <= j < |rows| && rows[j] == result[k];
    }
  }

  /** Every listed site name has its row in the result. */
  lemma EverySiteHasRow(racks: seq<Rack>, devices: seq<RackedDevice>, name: string)
    requires name in SiteOrder(racks)
    ensures UsageOf(name, TallyAt(racks, devices, name)) in RackUtilization(racks, devices)
  {
    var rows := UsageRows(racks, devices);
    SortSameElements(rows, DescendingUtilization);
    var j :| 0 <= j < |SiteOrder(racks)| && SiteOrder(racks)[j] == name;
    assert rows[j] == UsageOf(name, TallyAt(racks, devices, name));
  }

  lemma RatioAtMostOne(a: real, b: real)
    requires 0.0 <= a <= b && b > 0.0
    ensures 0.0 <= a / b <= 1.0
  {
    var q := a / b;
    assert q * b == a;
    if q > 1.0 {
      MulPositive(q - 1.0, b);
    }
  }

  /** A site with U-space has free space `total - used` and a utilisation
      within a percentage point of `used / total * 100`. */
  lemma UtilizationOfSite(t: Tally)
    ensures t.totalU <= 0 ==> Utilization(t) == 0.0
    ensures t.totalU > 0 ==> -0.05 <= Utilization(t) - t.usedU / t.totalU as real * 100.0 <= 0.05
    ensures t.totalU > 0 && 0.0 <= t.usedU <= t.totalU as real ==> 0.0 <= Utilization(t) <= 100.0
  {
    if t.totalU > 0 {
      var u := t.usedU / t.totalU as real * 100.0;
      RoundClose(u);
      if 0.0 <= t.usedU <= t.totalU as real {
        RatioAtMostOne(t.usedU, t.totalU as real);
        RoundWithin(u);
      }
    } else {
      RoundInteger(0);
    }
  }

  // ---------------------------------------------------------------------------
  // Sites near capacity and the widget context

  function AtLeast(threshold: real): SiteUsage -> bool
  {
    (u: SiteUsage) => u.utilization >= threshold
  }

  /** `[site for site in rack_utilization if site['utilization'] >= threshold]` */
  function SitesNearCapacity(rows: seq<SiteUsage>, threshold: real): seq<SiteUsage>
  {
    Filter(rows, AtLeast(threshold))
  }

  /** On a list sorted by utilisation, highest first, the sites near capacity
      are exactly a leading run of it. */
  lemma {:induction false} NearCapacityIsPrefix(rows: seq<SiteUsage>, threshold: real)
    requires SortedBy(rows, DescendingUtilization)
    ensures SitesNearCapacity(rows, threshold) == rows[..|SitesNearCapacity(rows, threshold)|]
  {
    if |rows| > 0 {
      var init, last := rows[..|rows| - 1], rows[|rows| - 1];
      assert SortedBy(init, DescendingUtilization);
      NearCapacityIsPrefix(init, threshold);
      if AtLeast(threshold)(last) {
        forall i | 0 <= i < |rows| ensures AtLeast(threshold)(rows[i]) {
          if i < |rows| - 1 {
            assert DescendingUtilization(rows[i]) <= DescendingUtilization(last);
          }
        }
        FilterAll(rows, AtLeast(threshold));
      }
    }
  }

  /** Exactly the sites at or above the threshold are listed, in their order. */
  lemma NearCapacityExact(rows: seq<SiteUsage>, threshold: real)
    ensures forall u :: u in SitesNearCapacity(rows, threshold) <==> u in rows && u.utilization >= threshold
  {
    FilterMembers(rows, AtLeast(threshold));
    forall u | u in rows && u.utilization >= threshold
      ensures u in SitesNearCapacity(rows, threshold)
    {
      var i :| 0 <= i < |rows| && rows[i] == u;
    }
  }

  datatype CapacityContext = CapacityContext(
    growth30Days: GrowthMetrics,
    growthHistorical: GrowthMetrics,
    rackUtilization: seq<SiteUsage>,
    sitesNearCapacity: seq<SiteUsage>,
    forecast6Months: Forecast,
    capacityThreshold: real)

  const DefaultHistoricalDays := 90
  const DefaultCapacityThreshold := 80.0

  /** `get_context_data`: growth over 30 days and over the configured period,
      the ten most used sites, every site at or above the threshold, and the
      six-month forecast from the longer period. The creation instants stand
      for the device, prefix and circuit tables. */
  method CapacityContextData(devices: seq<int>, prefixes: seq<int>, circuits: seq<int>, racks: seq<Rack>,
                             rackedDevices: seq<RackedDevice>, now: int,
                             historicalDays: Option<int>, capacityThreshold: Option<real>)
    returns (ctx: CapacityContext)
    ensures ctx.growth30Days == CalculateGrowthMetrics(devices, prefixes, circuits, now, 30)
    ensures ctx.growthHistorical == CalculateGrowthMetrics(devices, prefixes, circuits, now,
      if historicalDays.Some? then historicalDays.value else DefaultHistoricalDays)
    ensures ctx.capacityThreshold == if capacityThreshold.Some? then capacityThreshold.value else DefaultCapacityThreshold
    ensures ctx.rackUtilization == Take(RackUtilization(racks, rackedDevices), 10)
    ensures ctx.sitesNearCapacity == SitesNearCapacity(RackUtilization(racks, rackedDevices), ctx.capacityThreshold)
    ensures ctx.forecast6Months == ForecastCapacity(ctx.growthHistorical, 6)
    ensures ctx.forecast6Months.devices.forecasted == |devices| + ctx.forecast6Months.devices.growth
  {
    var days := if historicalDays.Some? then historicalDays.value else DefaultHistoricalDays;
    var threshold := if capacityThreshold.Some? then capacityThreshold.value else DefaultCapacityThreshold;
    var growth30 := CalculateGrowthMetrics(devices, prefixes, circuits, now, 30);
    var growthHistorical := CalculateGrowthMetrics(devices, prefixes, circuits, now, days);
    var rackUtilization := CalculateRackUtilization(racks, rackedDevices);
    var forecast := ForecastCapacity(growthHistorical, 6);
    ForecastOfMetrics(devices, prefixes, circuits, now, days, 6);
    ctx := CapacityContext(growth30, growthHistorical, Take(rackUtilization, 10),
      SitesNearCapacity(rackUtilization, threshold), forecast, threshold);
  }
}
