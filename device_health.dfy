/** The device health monitor of `widgets/device_health.py`: a score out of
    100 with a fixed deduction per failed data check, and the partition of the
    active devices into healthy, warning and critical. */
module DeviceHealth {
  import opened Common
  import opened Inventory

  /** The checks, in the order the score applies them. */
  datatype Check = NoPrimaryIp | NoSite | NoRole | NoInterfaces | NoSerial | NoAssetTag | NoPlatform | Offline

  /** The number of checks. */
  const CheckCount := 8

  /** The check at position `i` of the checking order. */
  function CheckAt(i: nat): Check
    requires i < CheckCount
  {
    if i == 0 then NoPrimaryIp
    else if i == 1 then NoSite
    else if i == 2 then NoRole
    else if i == 3 then NoInterfaces
    else if i == 4 then NoSerial
    else if i == 5 then NoAssetTag
    else if i == 6 then NoPlatform
    else Offline
  }

  /** Where a check stands in the checking order. */
  function Position(c: Check): (i: nat)
    ensures i < CheckCount && CheckAt(i) == c
  {
    match c
    case NoPrimaryIp => 0
    case NoSite => 1
    case NoRole => 2
    case NoInterfaces => 3
    case NoSerial => 4
    case NoAssetTag => 5
    case NoPlatform => 6
    case Offline => 7
  }

  lemma PositionIs(c: Check, i: nat)
    requires i < CheckCount
    ensures Position(c) == i <==> c == CheckAt(i)
  {
    PositionOfCheckAt(i);
  }

  lemma PositionOfCheckAt(i: nat)
    requires i < CheckCount
    ensures Position(CheckAt(i)) == i
  {
  }

  function Deduction(c: Check): nat
  {
    match c
    case NoPrimaryIp => 20
    case NoSite => 15
    case NoRole => 15
    case NoInterfaces => 15
    case NoSerial => 10
    case NoAssetTag => 10
    case NoPlatform => 10
    case Offline => 5
  }

  predicate IsOffline(d: Device)
  {
    d.status == "offline"
  }

  /** Whether device `d` fails check `c`; the serial and the asset tag are
      text fields, for which the empty string is missing too. */
  predicate Fails(d: Device, c: Check)
  {
    match c
    case NoPrimaryIp => !HasPrimaryIp(d)
    case NoSite => d.site.None?
    case NoRole => d.role.None?
    case NoInterfaces => d.interfaceCount == 0
    case NoSerial => !Present(d.serial)
    case NoAssetTag => !Present(d.assetTag)
    case NoPlatform => d.platform.None?
    case Offline => IsOffline(d)
  }

  /** The issue a check adds: itself when it failed, nothing otherwise. */
  function Flag(failed: bool, c: Check): seq<Check>
  {
    if failed then [c] else []
  }

  /** The checks among the first `k` that `d` fails, in check order. */
  function FailedAmong(d: Device, k: nat): seq<Check>
    requires k <= CheckCount
  {
    if k == 0 then []
    else FailedAmong(d, k - 1) + Flag(Fails(d, CheckAt(k - 1)), CheckAt(k - 1))
  }

  function FailedChecks(d: Device): seq<Check>
  {
    FailedAmong(d, CheckCount)
  }

  function TotalDeduction(cs: seq<Check>): nat
  {
    if |cs| == 0 then 0 else TotalDeduction(cs[..|cs| - 1]) + Deduction(cs[|cs| - 1])
  }

  /** The dictionary `calculate_device_health` returns; the issue list names
      the failed checks rather than their messages. */
  datatype Health = Health(device: Device, score: int, issues: seq<Check>, isHealthy: bool)

  /** The health record of a device: 100 less the deductions of the checks it
      fails, floored at 0; healthy is decided on the unfloored score. */
  function HealthOf(d: Device): Health
  {
    var raw := 100 - TotalDeduction(FailedChecks(d));
    Health(d, if raw < 0 then 0 else raw, FailedChecks(d), raw >= 80)
  }

  lemma DeductionStep(cs: seq<Check>, c: Check)
    ensures TotalDeduction(cs + [c]) == TotalDeduction(cs) + Deduction(c)
  {
    assert (cs + [c])[..|cs|] == cs;
  }

  /** One check of `calculate_device_health`: when it fails, its deduction
      comes off the score and its issue is appended. */
  method ApplyCheck(c: Check, failed: bool, score: int, issues: seq<Check>) returns (score': int, issues': seq<Check>)
    requires score == 100 - TotalDeduction(issues)
    ensures issues' == issues + Flag(failed, c)
    ensures score' == 100 - TotalDeduction(issues')
  {
    score', issues' := score, issues;
    if failed {
      DeductionStep(issues, c);
      score' := score - Deduction(c);
      issues' := issues + [c];
    } else {
      assert issues + [] == issues;
    }
  }

  /** `calculate_device_health`: the checks one after the other, in order. */
  method CalculateDeviceHealth(d: Device) returns (h: Health)
    ensures h == HealthOf(d)
  {
    var score := 100;
    var issues: seq<Check> := [];
    score, issues := ApplyCheck(NoPrimaryIp, !HasPrimaryIp(d), score, issues);
    score, issues := ApplyCheck(NoSite, d.site.None?, score, issues);
    score, issues := ApplyCheck(NoRole, d.role.None?, score, issues);
    score, issues := ApplyCheck(NoInterfaces, d.interfaceCount == 0, score, issues);
    score, issues := ApplyCheck(NoSerial, !Present(d.serial), score, issues);
    score, issues := ApplyCheck(NoAssetTag, !Present(d.assetTag), score, issues);
    score, issues := ApplyCheck(NoPlatform, d.platform.None?, score, issues);
    score, issues := ApplyCheck(Offline, IsOffline(d), score, issues);
    FailedChecksAsWritten(d);
    HealthFromChecks(d, score, issues);
    h := Health(d, Max0(score), issues, score >= 80);
  }

  lemma HealthFromChecks(d: Device, score: int, issues: seq<Check>)
    requires issues == FailedChecks(d) && score == 100 - TotalDeduction(issues)
    ensures Health(d, Max0(score), issues, score >= 80) == HealthOf(d)
  {
  }

  lemma FlagStep(d: Device, k: nat)
    requires k < CheckCount
    ensures FailedAmong(d, k + 1) == FailedAmong(d, k) + Flag(Fails(d, CheckAt(k)), CheckAt(k))
  {
  }

  /** The failed checks, spelled out with the conditions the source tests. */
  lemma FailedChecksAsWritten(d: Device)
    ensures FailedChecks(d) == [] + Flag(!HasPrimaryIp(d), NoPrimaryIp) + Flag(d.site.None?, NoSite)
                               + Flag(d.role.None?, NoRole) + Flag(d.interfaceCount == 0, NoInterfaces)
                               + Flag(!Present(d.serial), NoSerial) + Flag(!Present(d.assetTag), NoAssetTag)
                               + Flag(d.platform.None?, NoPlatform) + Flag(IsOffline(d), Offline)
  {
    FailedChecksInOrder(d);
  }

  /** The failed checks, spelled out check by check. */
  lemma FailedChecksInOrder(d: Device)
    ensures FailedChecks(d) == [] + Flag(Fails(d, NoPrimaryIp), NoPrimaryIp) + Flag(Fails(d, NoSite), NoSite)
                               + Flag(Fails(d, NoRole), NoRole) + Flag(Fails(d, NoInterfaces), NoInterfaces)
                               + Flag(Fails(d, NoSerial), NoSerial) + Flag(Fails(d, NoAssetTag), NoAssetTag)
                               + Flag(Fails(d, NoPlatform), NoPlatform) + Flag(Fails(d, Offline), Offline)
  {
    FlagStep(d, 0);
    FlagStep(d, 1);
    FlagStep(d, 2);
    FlagStep(d, 3);
    FlagStep(d, 4);
    FlagStep(d, 5);
    FlagStep(d, 6);
    FlagStep(d, 7);
  }

  /** `max(0, score)` */
  function Max0(x: int): (r: int)
    ensures r >= 0 && r >= x && (r == 0 || r == x)
  {
    if x < 0 then 0 else x
  }

  /** The sum of the deductions of the first `k` checks. */
  function Budget(k: nat): nat
    requires k <= CheckCount
  {
    if k == 0 then 0 else Budget(k - 1) + Deduction(CheckAt(k - 1))
  }

  /** The failed checks among the first `k` are exactly those of them that `d` fails. */
  lemma {:induction false} FailedAmongMembers(d: Device, k: nat)
    requires k <= CheckCount
    ensures forall c :: c in FailedAmong(d, k) <==> Position(c) < k && Fails(d, c)
  {
    if k > 0 {
      FailedAmongMembers(d, k - 1);
      var before, c := FailedAmong(d, k - 1), CheckAt(k - 1);
      var added := if Fails(d, c) then [c] else [];
      assert FailedAmong(d, k) == before + added;
      forall x
        ensures x in FailedAmong(d, k) <==> Position(x) < k && Fails(d, x)
      {
        assert x in before + added <==> x in before || x in added;
        PositionIs(x, k - 1);
      }
    }
  }

  /** They come in check order. */
  lemma {:induction false} FailedAmongOrdered(d: Device, k: nat)
    requires k <= CheckCount
    ensures forall c :: c in FailedAmong(d, k) ==> Position(c) < k
    ensures forall i, j :: 0 <= i < j < |FailedAmong(d, k)| ==>
              Position(FailedAmong(d, k)[i]) < Position(FailedAmong(d, k)[j])
  {
    if k > 0 {
      FailedAmongOrdered(d, k - 1);
      var before, c := FailedAmong(d, k - 1), CheckAt(k - 1);
      PositionOfCheckAt(k - 1);
      if Fails(d, c) {
        assert FailedAmong(d, k) == before + [c];
      } else {
        assert FailedAmong(d, k) == before;
      }
    }
  }

  /** They deduct no more than all of the first `k` checks would. */
  lemma {:induction false} FailedAmongDeduction(d: Device, k: nat)
    requires k <= CheckCount
    ensures TotalDeduction(FailedAmong(d, k)) <= Budget(k)
  {
    if k > 0 {
      FailedAmongDeduction(d, k - 1);
      var before, c := FailedAmong(d, k - 1), CheckAt(k - 1);
      if Fails(d, c) {
        DeductionStep(before, c);
        assert FailedAmong(d, k) == before + [c];
      } else {
        assert FailedAmong(d, k) == before;
      }
    }
  }

  /** One issue per failed check: an issue is listed iff its check fails. */
  lemma IssuesAreFailedChecks(d: Device)
    ensures forall c :: c in HealthOf(d).issues <==> Fails(d, c)
  {
    FailedAmongMembers(d, CheckCount);
  }

  /** The issues come in check order, each at most once. */
  lemma IssuesInCheckOrder(d: Device)
    ensures forall i, j :: 0 <= i < j < |HealthOf(d).issues| ==>
              Position(HealthOf(d).issues[i]) < Position(HealthOf(d).issues[j])
  {
    FailedAmongOrdered(d, CheckCount);
  }

  /** The deductions add up to at most 100, so the score lies in [0, 100], the
      floor at 0 never applies, and a device is healthy iff it scores 80 or more. */
  lemma ScoreBounds(d: Device)
    ensures 0 <= HealthOf(d).score <= 100
    ensures HealthOf(d).score == 100 - TotalDeduction(HealthOf(d).issues)
    ensures HealthOf(d).isHealthy <==> HealthOf(d).score >= 80
  {
    FailedAmongDeduction(d, CheckCount);
    assert Budget(8) == 100;
  }

  /** A device that passes every check scores 100 with no issues. */
  lemma PerfectDevice(d: Device)
    requires forall c :: !Fails(d, c)
    ensures HealthOf(d).score == 100 && HealthOf(d).issues == [] && HealthOf(d).isHealthy
  {
    NoneFailed(d, CheckCount);
  }

  lemma {:induction false} NoneFailed(d: Device, k: nat)
    requires k <= CheckCount
    requires forall c :: !Fails(d, c)
    ensures FailedAmong(d, k) == []
  {
    if k > 0 {
      NoneFailed(d, k - 1);
    }
  }

  /** The three buckets of the widget, by the floored score. */
  datatype Bucket = HealthyDevices | WarningDevices | CriticalDevices

  function BucketOf(score: int): Bucket
  {
    if score >= 80 then HealthyDevices else if score >= 60 then WarningDevices else CriticalDevices
  }

  function InBucket(b: Bucket): Health -> bool
  {
    (h: Health) => BucketOf(h.score) == b
  }

  /** A device lands in the healthy bucket exactly when it is healthy. */
  lemma HealthyBucketIsHealthy(d: Device)
    ensures BucketOf(HealthOf(d).score) == HealthyDevices <==> HealthOf(d).isHealthy
  {
    ScoreBounds(d);
  }

  /** The health records of the devices, in order. */
  function Healths(devices: seq<Device>): (r: seq<Health>)
    ensures |r| == |devices|
  {
    if |devices| == 0 then [] else Healths(devices[..|devices| - 1]) + [HealthOf(devices[|devices| - 1])]
  }

  /** Every device is in exactly one bucket. */
  lemma BucketsPartition(hs: seq<Health>)
    ensures Count(hs, InBucket(HealthyDevices)) + Count(hs, InBucket(WarningDevices))
          + Count(hs, InBucket(CriticalDevices)) == |hs|
  {
    PartitionCount(hs, InBucket(HealthyDevices), InBucket(WarningDevices), InBucket(CriticalDevices));
  }

  /** `healthy / total * 100`, or 100 with no devices, before rounding. */
  function OverallHealth(healthy: nat, total: nat): real
  {
    Percent(healthy, total, 100.0)
  }

  datatype HealthContext = HealthContext(
    totalDevices: nat,
    healthyCount: nat,
    warningCount: nat,
    criticalCount: nat,
    overallHealth: real,
    criticalDevices: seq<Health>,
    warningDevices: seq<Health>,
    staleDevicesCount: nat,
    noPrimaryIp: nat,
    noInterfaces: nat,
    noSite: nat,
    noRole: nat)

  function LastUpdatedBefore(cutoff: int): Device -> bool
  {
    (d: Device) => d.lastUpdated < cutoff
  }

  /** The loop of `get_context_data` that scores the active devices and
      appends each record to the list of its bucket. */
  method CategorizeDevices(active: seq<Device>) returns (healthy: seq<Health>, warning: seq<Health>, critical: seq<Health>)
    ensures healthy == Filter(Healths(active), InBucket(HealthyDevices))
    ensures warning == Filter(Healths(active), InBucket(WarningDevices))
    ensures critical == Filter(Healths(active), InBucket(CriticalDevices))
  {
    healthy, warning, critical := [], [], [];
    for i := 0 to |active|
      invariant healthy == Filter(Healths(active[..i]), InBucket(HealthyDevices))
      invariant warning == Filter(Healths(active[..i]), InBucket(WarningDevices))
      invariant critical == Filter(Healths(active[..i]), InBucket(CriticalDevices))
    {
      var healthData := CalculateDeviceHealth(active[i]);
      HealthsStep(active, i);
      FilterStep(Healths(active[..i]), healthData, InBucket(HealthyDevices));
      FilterStep(Healths(active[..i]), healthData, InBucket(WarningDevices));
      FilterStep(Healths(active[..i]), healthData, InBucket(CriticalDevices));
      var score := healthData.score;
      if score >= 80 {
        healthy := healthy + [healthData];
      } else if score >= 60 {
        warning := warning + [healthData];
      } else {
        critical := critical + [healthData];
      }
    }
    assert active[..|active|] == active;
  }

  lemma HealthsStep(s: seq<Device>, i: nat)
    requires i < |s|
    ensures Healths(s[..i + 1]) == Healths(s[..i]) + [HealthOf(s[i])]
  {
    assert s[..i + 1][..i] == s[..i];
  }

  /** `get_context_data`, without the cache wrapper and the timestamp: the
      active devices are scored and bucketed in order. */
  method HealthContextData(devices: seq<Device>, staleDays: int, now: int) returns (ctx: HealthContext)
    ensures var active := Filter(devices, IsActive);
            var hs := Healths(active);
            && ctx.totalDevices == |active|
            && ctx.healthyCount == Count(hs, InBucket(HealthyDevices))
            && ctx.warningCount == Count(hs, InBucket(WarningDevices))
            && ctx.criticalCount == Count(hs, InBucket(CriticalDevices))
            && ctx.criticalDevices == Take(Filter(hs, InBucket(CriticalDevices)), 10)
            && ctx.warningDevices == Take(Filter(hs, InBucket(WarningDevices)), 10)
            && ctx.overallHealth == Round1(OverallHealth(ctx.healthyCount, ctx.totalDevices))
            && ctx.staleDevicesCount == Count(active, LastUpdatedBefore(now - DaysInSeconds(staleDays)))
            && ctx.noPrimaryIp == Count(active, Failing(NoPrimaryIp))
            && ctx.noInterfaces == Count(active, Failing(NoInterfaces))
            && ctx.noSite == Count(active, Failing(NoSite))
            && ctx.noRole == Count(active, Failing(NoRole))
    ensures ctx.healthyCount + ctx.warningCount + ctx.criticalCount == ctx.totalDevices
    ensures 0.0 <= ctx.overallHealth <= 100.0
  {
    var active := Filter(devices, IsActive);
    var totalDevices := |active|;
    var healthyDevices, warningDevices, criticalDevices := CategorizeDevices(active);
    BucketsPartition(Healths(active));
    var overallHealth := OverallHealth(|healthyDevices|, totalDevices);
    RoundWithin(overallHealth);
    ctx := HealthContext(
      totalDevices, |healthyDevices|, |warningDevices|, |criticalDevices|, Round1(overallHealth),
      Take(criticalDevices, 10), Take(warningDevices, 10),
      Count(active, LastUpdatedBefore(now - DaysInSeconds(staleDays))),
      Count(active, Failing(NoPrimaryIp)), Count(active, Failing(NoInterfaces)),
      Count(active, Failing(NoSite)), Count(active, Failing(NoRole)));
  }

  /** The devices failing one check, as a filter predicate. */
  function Failing(c: Check): Device -> bool
  {
    d => Fails(d, c)
  }
}
