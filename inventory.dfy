/** The inventory records the core reads. Each record stands for one row the
    source fetches through the ORM, reduced to the fields the core looks at;
    related objects become optional values and related counts become numbers. */
module Inventory {
  import opened Common

  datatype SiteRef = SiteRef(id: int, name: string)

  /** `x.site.name if x.site else 'No Site'` */
  function SiteName(site: Option<SiteRef>): (r: string)
    ensures site.Some? ==> r == site.value.name
    ensures site.None? ==> r == "No Site"
  {
    if site.Some? then site.value.name else "No Site"
  }

  /** Python truthiness of an optional text field: neither None nor ''. */
  predicate Present(v: Option<string>)
  {
    v.Some? && v.value != ""
  }

  /** What `getattr(obj, name, None)` yields, for the attribute walk of the
      completeness check: None, a text, some other scalar, or an object whose
      attributes can be walked further. */
  datatype Value = Null | Text(text: string) | Scalar | Obj(attrs: map<string, Value>)

  /** An attribute lookup with None as the default; a scalar or text has no
      attributes of its own in this model. */
  function GetAttr(v: Value, name: string): (r: Value)
    ensures v.Obj? && name in v.attrs ==> r == v.attrs[name]
    ensures !(v.Obj? && name in v.attrs) ==> r == Null
  {
    if v.Obj? && name in v.attrs then v.attrs[name] else Null
  }

  datatype Device = Device(
    id: int,
    name: string,
    site: Option<SiteRef>,
    role: Option<string>,
    platform: Option<string>,
    serial: Option<string>,
    assetTag: Option<string>,
    hasPrimaryIp4: bool,
    hasPrimaryIp6: bool,
    interfaceCount: nat,
    status: string,
    lastUpdated: int,
    /** The device object as `getattr` sees it. The typed fields above are
        what the health and recommendation checks read; `view` is what the
        required-field walk reads. The model takes the two as independent
        inputs and does not require them to agree. */
    view: Value)

  predicate HasPrimaryIp(d: Device)
  {
    d.hasPrimaryIp4 || d.hasPrimaryIp6
  }

  predicate IsActive(d: Device)
  {
    d.status == "active"
  }

  /** The far end of a cable: a termination that is not on a device, or one on
      a device that may have a site. */
  datatype Termination = NotOnDevice | OnDevice(deviceSite: Option<SiteRef>)

  datatype Cable = Cable(
    id: int,
    cableLabel: Option<string>,
    hasATermination: bool,
    hasBTermination: bool,
    cableType: Option<string>)

  datatype Interface = Interface(
    id: int,
    name: string,
    deviceId: Option<int>,
    deviceName: Option<string>,
    enabled: bool,
    hasCable: bool,
    /** The B-side terminations of the attached cable. */
    cableBEnds: seq<Termination>,
    macAddress: Option<string>)

  datatype IpCounts = IpCounts(total: int, used: int)

  datatype Prefix = Prefix(
    id: int,
    prefix: string,
    site: Option<SiteRef>,
    vrf: Option<string>,
    role: Option<string>,
    roleSlug: Option<string>,
    status: string,
    description: string,
    /** The total and used address counts, or the exception raised while
        counting them. */
    counts: Result<IpCounts>)

  /** One stored utilisation snapshot of a prefix. */
  datatype Snapshot = Snapshot(prefixId: int, calculatedAt: int, utilization: real)

  datatype Rack = Rack(id: int, site: Option<SiteRef>, uHeight: int)

  /** A device as rack capacity sees it: its rack and its type's height. */
  datatype RackedDevice = RackedDevice(rackId: Option<int>, typeUHeight: Option<real>)

  /** `timedelta(days=n)`, in seconds. */
  function DaysInSeconds(days: int): int
  {
    days * 86400
  }

  /** `timedelta(weeks=w)`, in seconds. */
  function WeeksInSeconds(weeks: real): real
  {
    weeks * 604800.0
  }

  /** The whole days of a non-negative interval: `timedelta.days`. */
  function WholeDays(seconds: int): int
  {
    seconds / 86400
  }
}
