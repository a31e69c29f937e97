/** The data validators: required-field completeness of a device, the overall
    data quality score, cable connection validation and the list of
    data quality recommendations. */
module Validators {
  import opened Common
  import opened Inventory

  // ---------------------------------------------------------------------------
  // Field paths

  /** `s.split(sep)`: the pieces between the separators, empty pieces kept. */
  function Split(s: string, sep: char): (r: seq<string>)
    ensures |r| >= 1
    ensures forall i :: 0 <= i < |r| ==> sep !in r[i]
  {
    if |s| == 0 then [""]
    else if s[|s| - 1] == sep then Split(s[..|s| - 1], sep) + [""]
    else
      var init := Split(s[..|s| - 1], sep);
      init[..|init| - 1] + [init[|init| - 1] + [s[|s| - 1]]]
  }

  /** `sep.join(parts)` */
  function Join(parts: seq<string>, sep: char): string
    requires |parts| >= 1
  {
    if |parts| == 1 then parts[0]
    else Join(parts[..|parts| - 1], sep) + [sep] + parts[|parts| - 1]
  }

  lemma JoinExtendLast(parts: seq<string>, sep: char, t: string)
    requires |parts| >= 1
    ensures Join(parts[..|parts| - 1] + [parts[|parts| - 1] + t], sep) == Join(parts, sep) + t
  {
    var n := |parts|;
    var q := parts[..n - 1] + [parts[n - 1] + t];
    if n > 1 {
      assert q[..n - 1] == parts[..n - 1];
    }
  }

  /** Splitting loses nothing: joining the pieces gives the field back. */
  lemma {:induction false} SplitJoin(s: string, sep: char)
    ensures Join(Split(s, sep), sep) == s
  {
    if |s| > 0 {
      var init := s[..|s| - 1];
      SplitJoin(init, sep);
      if s[|s| - 1] != sep {
        JoinExtendLast(Split(init, sep), sep, [s[|s| - 1]]);
      }
    }
  }

  /** A field without the separator is a path of one step. */
  lemma {:induction false} SplitWithoutSeparator(s: string, sep: char)
    requires sep !in s
    ensures Split(s, sep) == [s]
  {
    if |s| > 0 {
      var init := s[..|s| - 1];
      assert forall c :: c in init ==> c in s;
      SplitWithoutSeparator(init, sep);
      assert init + [s[|s| - 1]] == s;
    }
  }

  /** `value = getattr(value, part, None)` along the path, from the device. */
  function Walk(v: Value, parts: seq<string>): Value
  {
    if |parts| == 0 then v else GetAttr(Walk(v, parts[..|parts| - 1]), parts[|parts| - 1])
  }

  /** Once the walk meets None it stays None: `getattr(None, part, None)` is
      None, so stopping at the first None changes nothing. */
  lemma {:induction false} WalkStaysNull(v: Value, p: seq<string>, q: seq<string>)
    requires Walk(v, p).Null?
    ensures Walk(v, p + q).Null?
    decreases |q|
  {
    if |q| == 0 {
      assert p + q == p;
    } else {
      var init := q[..|q| - 1];
      WalkStaysNull(v, p, init);
      assert p + q == (p + init) + [q[|q| - 1]];
      assert (p + q)[..|p + q| - 1] == p + init;
    }
  }

  // ---------------------------------------------------------------------------
  // Completeness of one device

  /** A required field is missing: a dotted path whose walk reaches None, or a
      plain attribute that is None or the empty string. */
  predicate FieldMissing(device: Value, field: string)
  {
    if '.' in field then Walk(device, Split(field, '.')).Null?
    else GetAttr(device, field).Null? || GetAttr(device, field) == Text("")
  }

  function MissingIn(device: Value): string -> bool
  {
    field => FieldMissing(device, field)
  }

  /** The required fields the device lacks, in the order they were required. */
  function MissingFields(device: Value, requiredFields: seq<string>): seq<string>
  {
    Filter(requiredFields, MissingIn(device))
  }

  /** Exactly the required fields that are missing are reported. */
  lemma MissingFieldsExact(device: Value, requiredFields: seq<string>)
    ensures forall i :: 0 <= i < |MissingFields(device, requiredFields)| ==>
      MissingFields(device, requiredFields)[i] in requiredFields &&
      FieldMissing(device, MissingFields(device, requiredFields)[i])
    ensures forall i :: 0 <= i < |requiredFields| && FieldMissing(device, requiredFields[i]) ==>
      requiredFields[i] in MissingFields(device, requiredFields)
  {
    FilterMembers(requiredFields, MissingIn(device));
  }

  /** A two-step field `a.b` is missing exactly when `b` of `a` is None: an
      empty string at the end of a path counts as present, where a plain field
      holding the empty string is missing. */
  lemma TwoStepField(device: Value, a: string, b: string)
    requires '.' !in a && '.' !in b
    ensures FieldMissing(device, a + "." + b) <==> GetAttr(GetAttr(device, a), b).Null?
  {
    var dotted := a + "." + b;
    assert dotted[|a|] == '.';
    SplitDotted(a, b);
    assert '.' in dotted;
    assert [a, b][..1] == [a];
    assert [a][..0] == [];
    assert Walk(device, [a]) == GetAttr(device, a);
    assert Walk(device, [a, b]) == GetAttr(Walk(device, [a]), b);
  }

  lemma SplitDotted(a: string, b: string)
    requires '.' !in a && '.' !in b
    ensures Split(a + "." + b, '.') == [a, b]
  {
    SplitAppend(a + ".", b);
    assert (a + ".")[..|a|] == a;
    SplitWithoutSeparator(a, '.');
  }

  lemma {:induction false} SplitAppend(s: string, t: string)
    requires |s| > 0 && s[|s| - 1] == '.' && '.' !in t
    ensures Split(s + t, '.') == Split(s[..|s| - 1], '.') + [t]
    decreases |t|
  {
    if |t| == 0 {
      assert s + t == s;
    } else {
      SplitAppend(s, t[..|t| - 1]);
      assert (s + t)[..|s + t| - 1] == s + t[..|t| - 1];
      assert t[..|t| - 1] + [t[|t| - 1]] == t;
    }
  }

  /** The dotted branch of `validate_device_completeness`: walks the parts
      with `getattr` and stops at the first None. */
  method WalkPath(device: Value, parts: seq<string>) returns (missing: bool)
    requires |parts| >= 1
    ensures missing == Walk(device, parts).Null?
  {
    var value := device;
    var j := 0;
    missing := false;
    while j < |parts|
      invariant 0 <= j <= |parts|
      invariant value == Walk(device, parts[..j])
      invariant j > 0 ==> !value.Null?
    {
      assert parts[..j + 1][..j] == parts[..j];
      value := GetAttr(value, parts[j]);
      if value.Null? {
        WalkStaysNull(device, parts[..j + 1], parts[j + 1..]);
        assert parts[..j + 1] + parts[j + 1..] == parts;
        missing := true;
        return;
      }
      j := j + 1;
    }
    assert parts[..j] == parts;
  }

  lemma MissingFieldsStep(device: Value, fields: seq<string>, k: nat, missing: bool)
    requires k < |fields| && missing == FieldMissing(device, fields[k])
    ensures Filter(fields[..k + 1], MissingIn(device)) ==
      Filter(fields[..k], MissingIn(device)) + (if missing then [fields[k]] else [])
  {
    FilterStep(fields[..k], fields[k], MissingIn(device));
    assert fields[..k + 1] == fields[..k] + [fields[k]];
  }

  /** The body of the loop over the required fields: a dotted field is
      walked part by part, a plain one is looked up once. */
  method CheckField(device: Value, field: string) returns (missing: bool)
    ensures missing == FieldMissing(device, field)
  {
    if '.' in field {
      missing := WalkPath(device, Split(field, '.'));
    } else {
      var value := GetAttr(device, field);
      missing := value.Null? || value == Text("");
    }
  }

  /** `validate_device_completeness`: whether every required field is
      populated, and the ones that are not. */
  method ValidateDeviceCompleteness(device: Value, requiredFields: seq<string>)
    returns (isValid: bool, missingFields: seq<string>)
    ensures missingFields == MissingFields(device, requiredFields)
    ensures isValid <==> |missingFields| == 0
  {
    missingFields := [];
    for k := 0 to |requiredFields|
      invariant missingFields == Filter(requiredFields[..k], MissingIn(device))
    {
      var field := requiredFields[k];
      var missing := CheckField(device, field);
      MissingFieldsStep(device, requiredFields, k, missing);
      if missing {
        missingFields := missingFields + [field];
      }
    }
    assert requiredFields[..|requiredFields|] == requiredFields;
    isValid := |missingFields| == 0;
  }

  // ---------------------------------------------------------------------------
  // Duplicates

  /** A key of the given value: `key(x) == k`. */
  function HasKey<T>(key: T -> Option<string>, k: string): T -> bool
  {
    x => key(x) == Some(k)
  }

  /** `values(key).annotate(count=Count(key)).filter(count__gt=1, ...)`: the
      keys carried by more than one element, each once, in order of first
      appearance. */
  function DuplicateKeys<T>(s: seq<T>, key: T -> Option<string>): seq<string>
  {
    Filter(Distinct(Collect(s, key)), (k: string) => Count(s, HasKey(key, k)) > 1)
  }

  /** A key is reported exactly when more than one element carries it, and no
      key is reported twice. */
  lemma DuplicateKeysExact<T>(s: seq<T>, key: T -> Option<string>, k: string)
    ensures k in DuplicateKeys(s, key) <==> Count(s, HasKey(key, k)) > 1
    ensures forall i, j :: 0 <= i < j < |DuplicateKeys(s, key)| ==>
      DuplicateKeys(s, key)[i] != DuplicateKeys(s, key)[j]
  {
    var p := (k: string) => Count(s, HasKey(key, k)) > 1;
    var d := Distinct(Collect(s, key));
    FilterMembers(d, p);
    CollectMembers(s, key, k);
    CountPositive(s, HasKey(key, k));
    if Count(s, HasKey(key, k)) > 1 {
      var i :| 0 <= i < |s| && HasKey(key, k)(s[i]);
      assert key(s[i]) == Some(k);
      assert k in d;
      var j :| 0 <= j < |d| && d[j] == k;
    }
    FilterKeepsDistinct(d, p);
  }

  lemma {:induction false} FilterKeepsDistinct<T>(s: seq<T>, p: T -> bool)
    requires forall i, j :: 0 <= i < j < |s| ==> s[i] != s[j]
    ensures forall i, j :: 0 <= i < j < |Filter(s, p)| ==> Filter(s, p)[i] != Filter(s, p)[j]
  {
    if |s| > 0 {
      var init := s[..|s| - 1];
      FilterKeepsDistinct(init, p);
      FilterMembers(init, p);
      var r := Filter(s, p);
      if p(s[|s| - 1]) {
        forall i | 0 <= i < |r| - 1 ensures r[i] != s[|s| - 1] {
          assert r[i] == Filter(init, p)[i];
          assert r[i] in init;
        }
      }
    }
  }

  /** The serial number a duplicate is counted under: none when it is null or
      empty (`serial__isnull=False`, `.exclude(serial='')`). */
  function SerialKey(d: Device): Option<string>
  {
    if Present(d.serial) then Some(d.serial.value) else None
  }

  lemma HasSerial(d: Device, s: string)
    requires s != ""
    ensures HasKey(SerialKey, s)(d) == (d.serial == Some(s))
  {
    assert HasKey(SerialKey, s)(d) == (SerialKey(d) == Some(s));
  }

  function MacKey(i: Interface): Option<string>
  {
    i.macAddress
  }

  datatype DeviceRef = DeviceRef(name: string, id: int)

  datatype SerialGroup = SerialGroup(serial: string, count: nat, devices: seq<DeviceRef>)

  datatype MacEntry = MacEntry(device: string, interface: string, id: int)

  datatype MacGroup = MacGroup(macAddress: string, count: nat, interfaces: seq<MacEntry>)

  function WithSerial(serial: string): Device -> Option<DeviceRef>
  {
    (d: Device) => if d.serial == Some(serial) then Some(DeviceRef(d.name, d.id)) else None
  }

  function WithMac(mac: string): Interface -> Option<MacEntry>
  {
    (i: Interface) => if i.macAddress == Some(mac)
      then Some(MacEntry(if i.deviceName.Some? then i.deviceName.value else "N/A", i.name, i.id))
      else None
  }

  function SerialGroupOf(devices: seq<Device>): string -> SerialGroup
  {
    s => SerialGroup(s, Count(devices, HasKey(SerialKey, s)), Collect(devices, WithSerial(s)))
  }

  function MacGroupOf(interfaces: seq<Interface>): string -> MacGroup
  {
    m => MacGroup(m, Count(interfaces, HasKey(MacKey, m)), Collect(interfaces, WithMac(m)))
  }

  /** The `duplicate_serials` issue list. */
  function DuplicateSerials(devices: seq<Device>): seq<SerialGroup>
  {
    MapList(DuplicateKeys(devices, SerialKey), SerialGroupOf(devices))
  }

  /** The `duplicate_macs` issue list. */
  function DuplicateMacs(interfaces: seq<Interface>): seq<MacGroup>
  {
    MapList(DuplicateKeys(interfaces, MacKey), MacGroupOf(interfaces))
  }

  /** Each duplicate serial group names a non-empty serial shared by more than
      one device, lists every device carrying it, and its count is the length
      of that list; every shared serial has a group. */
  lemma DuplicateSerialsExact(devices: seq<Device>, serial: string)
    ensures (exists g :: g in DuplicateSerials(devices) && g.serial == serial) <==>
      serial != "" && Count(devices, HasKey(SerialKey, serial)) > 1
    ensures forall g :: g in DuplicateSerials(devices) ==>
      g.count > 1 && g.count == |g.devices| && g.serial != ""
  {
    var keys := DuplicateKeys(devices, SerialKey);
    var groups := DuplicateSerials(devices);
    DuplicateKeysExact(devices, SerialKey, serial);
    if serial in keys {
      var i :| 0 <= i < |keys| && keys[i] == serial;
      assert groups[i].serial == serial;
    }
    if serial == "" {
      EmptySerialNeverKey(devices);
    }
    forall g | g in groups ensures g.count > 1 && g.count == |g.devices| && g.serial != "" {
      var i :| 0 <= i < |groups| && groups[i] == g;
      var s := keys[i];
      DuplicateKeysExact(devices, SerialKey, s);
      if s == "" {
        EmptySerialNeverKey(devices);
      }
      forall j | 0 <= j < |devices|
        ensures WithSerial(s)(devices[j]).Some? == HasKey(SerialKey, s)(devices[j])
      {
        HasSerial(devices[j], s);
      }
      CollectLength(devices, WithSerial(s), HasKey(SerialKey, s));
    }
  }

  lemma EmptySerialNeverKey(devices: seq<Device>)
    ensures Count(devices, HasKey(SerialKey, "")) == 0
  {
    forall j | 0 <= j < |devices| ensures !HasKey(SerialKey, "")(devices[j]) {
      assert HasKey(SerialKey, "")(devices[j]) == (SerialKey(devices[j]) == Some(""));
    }
    CountPositive(devices, HasKey(SerialKey, ""));
  }

  /** Each duplicate MAC group names an address on more than one interface and
      lists every such interface; every shared address has a group. */
  lemma DuplicateMacsExact(interfaces: seq<Interface>, mac: string)
    ensures (exists g :: g in DuplicateMacs(interfaces) && g.macAddress == mac) <==>
      Count(interfaces, HasKey(MacKey, mac)) > 1
    ensures forall g :: g in DuplicateMacs(interfaces) ==> g.count > 1 && g.count == |g.interfaces|
  {
    var keys := DuplicateKeys(interfaces, MacKey);
    var groups := DuplicateMacs(interfaces);
    DuplicateKeysExact(interfaces, MacKey, mac);
    if mac in keys {
      var i :| 0 <= i < |keys| && keys[i] == mac;
      assert groups[i].macAddress == mac;
    }
    forall g | g in groups ensures g.count > 1 && g.count == |g.interfaces| {
      var i :| 0 <= i < |groups| && groups[i] == g;
      var m := keys[i];
      DuplicateKeysExact(interfaces, MacKey, m);
      forall j | 0 <= j < |interfaces|
        ensures WithMac(m)(interfaces[j]).Some? == HasKey(MacKey, m)(interfaces[j])
      {
        assert HasKey(MacKey, m)(interfaces[j]) == (MacKey(interfaces[j]) == Some(m));
      }
      CollectLength(interfaces, WithMac(m), HasKey(MacKey, m));
    }
  }

  // ---------------------------------------------------------------------------
  // The data quality score

  const DefaultRequiredFields: seq<string> := ["site", "device_role", "device_type"]

  function RequiredOrDefault(requiredFields: Option<seq<string>>): seq<string>
  {
    if requiredFields.Some? then requiredFields.value else DefaultRequiredFields
  }

  function PatternsOrDefault(namingPatterns: Option<map<string, string>>): map<string, string>
  {
    if namingPatterns.Some? then namingPatterns.value else map[]
  }

  datatype MissingEntry = MissingEntry(device: string, deviceId: int, missing: seq<string>)

  datatype NamingEntry = NamingEntry(device: string, deviceId: int, field: string, pattern: string)

  datatype Issues = Issues(
    missingFields: seq<MissingEntry>,
    namingViolations: seq<NamingEntry>,
    duplicateSerials: seq<SerialGroup>,
    duplicateMacs: seq<MacGroup>,
    missingPrimaryIp: seq<DeviceRef>,
    noInterfaces: seq<DeviceRef>)

  /** The `details` counts of the report. */
  datatype IssueCounts = IssueCounts(
    missingFieldsCount: nat,
    namingViolationsCount: nat,
    duplicateSerialsCount: nat,
    duplicateMacsCount: nat,
    missingPrimaryIpCount: nat,
    noInterfacesCount: nat)

  datatype QualityReport =
    /** `{'score': 100, 'message': 'No devices to evaluate'}` */
    | NothingToEvaluate(score: real)
    | Scored(
        score: real,
        totalDevices: nat,
        compliantDevices: nat,
        nonCompliantDevices: int,
        totalIssues: nat,
        issues: Issues,
        details: IssueCounts)

  /** `validate_naming_convention(name, pattern)` is a regular expression match,
      which this model takes as a parameter. */
  type NameMatcher = (string, string) -> bool

  /** The device name breaks the `device_name` convention, when one is set. */
  predicate NamingViolated(d: Device, patterns: map<string, string>, matches: NameMatcher)
  {
    "device_name" in patterns && !matches(d.name, patterns["device_name"])
  }

  /** A device is compliant when it has every required field, follows the
      naming convention, has a primary address and has an interface. */
  function Compliant(fields: seq<string>, patterns: map<string, string>, matches: NameMatcher): Device -> bool
  {
    (d: Device) => |MissingFields(d.view, fields)| == 0 && !NamingViolated(d, patterns, matches) &&
      HasPrimaryIp(d) && d.interfaceCount > 0
  }

  function MissingEntryOf(fields: seq<string>): Device -> Option<MissingEntry>
  {
    (d: Device) => var m := MissingFields(d.view, fields);
      if |m| == 0 then None else Some(MissingEntry(d.name, d.id, m))
  }

  function NamingEntryOf(patterns: map<string, string>, matches: NameMatcher): Device -> Option<NamingEntry>
  {
    (d: Device) => if NamingViolated(d, patterns, matches)
      then Some(NamingEntry(d.name, d.id, "name", patterns["device_name"]))
      else None
  }

  function NoPrimaryIpEntry(d: Device): Option<DeviceRef>
  {
    if HasPrimaryIp(d) then None else Some(DeviceRef(d.name, d.id))
  }

  function NoInterfacesEntry(d: Device): Option<DeviceRef>
  {
    if d.interfaceCount == 0 then Some(DeviceRef(d.name, d.id)) else None
  }

  /** `sum(len(v) for v in issues.values())` */
  function TotalIssues(issues: Issues): nat
  {
    |issues.missingFields| + |issues.namingViolations| + |issues.duplicateSerials| +
    |issues.duplicateMacs| + |issues.missingPrimaryIp| + |issues.noInterfaces|
  }

  function CountsOf(issues: Issues): IssueCounts
  {
    IssueCounts(|issues.missingFields|, |issues.namingViolations|, |issues.duplicateSerials|,
      |issues.duplicateMacs|, |issues.missingPrimaryIp|, |issues.noInterfaces|)
  }

  /** The six issue lists of a non-empty inventory. */
  function IssuesOf(devices: seq<Device>, interfaces: seq<Interface>, fields: seq<string>,
                    patterns: map<string, string>, matches: NameMatcher): Issues
  {
    Issues(
      Collect(devices, MissingEntryOf(fields)),
      Collect(devices, NamingEntryOf(patterns, matches)),
      DuplicateSerials(devices),
      DuplicateMacs(interfaces),
      Collect(devices, NoPrimaryIpEntry),
      Collect(devices, NoInterfacesEntry))
  }

  /** One device of the scoring loop: its compliance verdict and the entries it
      adds to the four per-device issue lists. */
  method CheckDevice(d: Device, fields: seq<string>, patterns: map<string, string>, matches: NameMatcher)
    returns (compliant: bool, missing: Option<MissingEntry>, naming: Option<NamingEntry>,
             noIp: Option<DeviceRef>, noInterfaces: Option<DeviceRef>)
    ensures compliant == Compliant(fields, patterns, matches)(d)
    ensures missing == MissingEntryOf(fields)(d)
    ensures naming == NamingEntryOf(patterns, matches)(d)
    ensures noIp == NoPrimaryIpEntry(d)
    ensures noInterfaces == NoInterfacesEntry(d)
  {
    compliant := true;
    missing, naming, noIp, noInterfaces := None, None, None, None;
    var isComplete, missingFields := ValidateDeviceCompleteness(d.view, fields);
    if !isComplete {
      compliant := false;
      missing := Some(MissingEntry(d.name, d.id, missingFields));
    }
    if "device_name" in patterns {
      if !matches(d.name, patterns["device_name"]) {
        compliant := false;
        naming := Some(NamingEntry(d.name, d.id, "name", patterns["device_name"]));
      }
    }
    if !d.hasPrimaryIp4 && !d.hasPrimaryIp6 {
      compliant := false;
      noIp := Some(DeviceRef(d.name, d.id));
    }
    if d.interfaceCount == 0 {
      compliant := false;
      noInterfaces := Some(DeviceRef(d.name, d.id));
    }
  }

  /** `calculate_data_quality_score` over all devices and interfaces. */
  method CalculateDataQualityScore(
    devices: seq<Device>, interfaces: seq<Interface>,
    requiredFields: Option<seq<string>>, namingPatterns: Option<map<string, string>>,
    matches: NameMatcher)
    returns (r: QualityReport)
    ensures |devices| == 0 ==> r == NothingToEvaluate(100.0)
    ensures |devices| > 0 ==> r.Scored? && r.totalDevices == |devices|
    ensures r.Scored? ==>
      && r.compliantDevices ==
        Count(devices, Compliant(RequiredOrDefault(requiredFields), PatternsOrDefault(namingPatterns), matches))
      && r.nonCompliantDevices == |devices| - r.compliantDevices
      && r.score == Round1(Percent(r.compliantDevices, |devices|, 100.0))
      && r.issues ==
        IssuesOf(devices, interfaces, RequiredOrDefault(requiredFields), PatternsOrDefault(namingPatterns), matches)
      && r.totalIssues == TotalIssues(r.issues)
      && r.details == CountsOf(r.issues)
  {
    var f := RequiredOrDefault(requiredFields);
    var p := PatternsOrDefault(namingPatterns);
    var total := |devices|;
    if total == 0 {
      return NothingToEvaluate(100.0);
    }
    var missingFields: seq<MissingEntry> := [];
    var namingViolations: seq<NamingEntry> := [];
    var missingPrimaryIp: seq<DeviceRef> := [];
    var noInterfaces: seq<DeviceRef> := [];
    var compliantDevices := 0;
    assert devices[..0] == [];
    for i := 0 to total
      invariant missingFields == Collect(devices[..i], MissingEntryOf(f))
      invariant namingViolations == Collect(devices[..i], NamingEntryOf(p, matches))
      invariant missingPrimaryIp == Collect(devices[..i], NoPrimaryIpEntry)
      invariant noInterfaces == Collect(devices[..i], NoInterfacesEntry)
      invariant compliantDevices == Count(devices[..i], Compliant(f, p, matches))
    {
      var d := devices[i];
      var ok, m, n, ip, ifs := CheckDevice(d, f, p, matches);
      ScoreStep(devices, i, f, p, matches);
      if m.Some? {
        missingFields := missingFields + [m.value];
      }
      assert missingFields == Collect(devices[..i + 1], MissingEntryOf(f));
      if n.Some? {
        namingViolations := namingViolations + [n.value];
      }
      assert namingViolations == Collect(devices[..i + 1], NamingEntryOf(p, matches));
      if ip.Some? {
        missingPrimaryIp := missingPrimaryIp + [ip.value];
      }
      assert missingPrimaryIp == Collect(devices[..i + 1], NoPrimaryIpEntry);
      if ifs.Some? {
        noInterfaces := noInterfaces + [ifs.value];
      }
      assert noInterfaces == Collect(devices[..i + 1], NoInterfacesEntry);
      if ok {
        compliantDevices := compliantDevices + 1;
      }
    }
    assert devices[..total] == devices;
    var issues := Issues(missingFields, namingViolations, DuplicateSerials(devices),
      DuplicateMacs(interfaces), missingPrimaryIp, noInterfaces);
    var score := compliantDevices as real / total as real * 100.0;
    assert score == Percent(compliantDevices, total, 100.0);
    r := Scored(Round1(score), total, compliantDevices, total - compliantDevices,
      TotalIssues(issues), issues, CountsOf(issues));
  }

  /** What one more device adds to the lists and the count of the scoring loop. */
  lemma ScoreStep(devices: seq<Device>, i: nat, f: seq<string>, p: map<string, string>, matches: NameMatcher)
    requires i < |devices|
    ensures Collect(devices[..i + 1], MissingEntryOf(f)) ==
      Collect(devices[..i], MissingEntryOf(f)) + AsList(MissingEntryOf(f)(devices[i]))
    ensures Collect(devices[..i + 1], NamingEntryOf(p, matches)) ==
      Collect(devices[..i], NamingEntryOf(p, matches)) + AsList(NamingEntryOf(p, matches)(devices[i]))
    ensures Collect(devices[..i + 1], NoPrimaryIpEntry) ==
      Collect(devices[..i], NoPrimaryIpEntry) + AsList(NoPrimaryIpEntry(devices[i]))
    ensures Collect(devices[..i + 1], NoInterfacesEntry) ==
      Collect(devices[..i], NoInterfacesEntry) + AsList(NoInterfacesEntry(devices[i]))
    ensures Count(devices[..i + 1], Compliant(f, p, matches)) ==
      Count(devices[..i], Compliant(f, p, matches)) + (if Compliant(f, p, matches)(devices[i]) then 1 else 0)
  {
    var d := devices[i];
    assert devices[..i + 1] == devices[..i] + [d];
    CollectStep(devices[..i], d, MissingEntryOf(f));
    CollectStep(devices[..i], d, NamingEntryOf(p, matches));
    CollectStep(devices[..i], d, NoPrimaryIpEntry);
    CollectStep(devices[..i], d, NoInterfacesEntry);
    FilterStep(devices[..i], d, Compliant(f, p, matches));
  }

  /** The score is a percentage, and a fully compliant inventory scores 100. */
  lemma ScoreBounds(devices: seq<Device>, fields: seq<string>, patterns: map<string, string>, matches: NameMatcher)
    requires |devices| > 0
    ensures 0.0 <= Round1(Percent(Count(devices, Compliant(fields, patterns, matches)), |devices|, 100.0)) <= 100.0
    ensures Count(devices, Compliant(fields, patterns, matches)) == |devices| ==>
      Round1(Percent(Count(devices, Compliant(fields, patterns, matches)), |devices|, 100.0)) == 100.0
  {
    RoundWithin(Percent(Count(devices, Compliant(fields, patterns, matches)), |devices|, 100.0));
    RoundInteger(100);
  }

  /** A device is non-compliant exactly when it adds an entry to at least one
      of the four per-device issue lists. */
  lemma NonCompliantIffListed(d: Device, fields: seq<string>, patterns: map<string, string>, matches: NameMatcher)
    ensures !Compliant(fields, patterns, matches)(d) <==>
      MissingEntryOf(fields)(d).Some? || NamingEntryOf(patterns, matches)(d).Some? ||
      NoPrimaryIpEntry(d).Some? || NoInterfacesEntry(d).Some?
  {
  }

  /** Every non-compliant device accounts for at least one issue, so the issue
      total is never below the number of non-compliant devices. */
  lemma {:induction false} IssuesCoverNonCompliant(devices: seq<Device>, interfaces: seq<Interface>,
      fields: seq<string>, patterns: map<string, string>, matches: NameMatcher)
    ensures TotalIssues(IssuesOf(devices, interfaces, fields, patterns, matches)) >=
      |devices| - Count(devices, Compliant(fields, patterns, matches))
  {
    PerDeviceIssuesCover(devices, fields, patterns, matches);
  }

  lemma {:induction false} PerDeviceIssuesCover(devices: seq<Device>, fields: seq<string>,
      patterns: map<string, string>, matches: NameMatcher)
    ensures |Collect(devices, MissingEntryOf(fields))| + |Collect(devices, NamingEntryOf(patterns, matches))| +
      |Collect(devices, NoPrimaryIpEntry)| + |Collect(devices, NoInterfacesEntry)| >=
      |devices| - Count(devices, Compliant(fields, patterns, matches))
  {
    if |devices| > 0 {
      var init, d := devices[..|devices| - 1], devices[|devices| - 1];
      PerDeviceIssuesCover(init, fields, patterns, matches);
      NonCompliantIffListed(d, fields, patterns, matches);
    }
  }

  // ---------------------------------------------------------------------------
  // Cable validation

  datatype CableIssue = MissingATermination | MissingBTermination | MissingCableType

  function IssueRank(i: CableIssue): nat
  {
    match i
    case MissingATermination => 0
    case MissingBTermination => 1
    case MissingCableType => 2
  }

  /** The problems of one cable: a side without terminations, or no type
      (`not cable.type`: none or empty). */
  function CableIssues(c: Cable): (r: seq<CableIssue>)
    ensures MissingATermination in r <==> !c.hasATermination
    ensures MissingBTermination in r <==> !c.hasBTermination
    ensures MissingCableType in r <==> !Present(c.cableType)
    ensures forall i, j :: 0 <= i < j < |r| ==> IssueRank(r[i]) < IssueRank(r[j])
  {
    (if !c.hasATermination then [MissingATermination] else []) +
    (if !c.hasBTermination then [MissingBTermination] else []) +
    (if !Present(c.cableType) then [MissingCableType] else [])
  }

  predicate CableValid(c: Cable)
  {
    c.hasATermination && c.hasBTermination && Present(c.cableType)
  }

  /** `cable.label or f'Cable #{cable.pk}'` */
  function CableLabel(c: Cable): (r: string)
    ensures |r| > 0
  {
    if Present(c.cableLabel) then c.cableLabel.value else "Cable #" + IntToString(c.id)
  }

  datatype InvalidCable = InvalidCable(cableId: int, cableLabel: string, issues: seq<CableIssue>)

  function InvalidEntry(c: Cable): Option<InvalidCable>
  {
    var issues := CableIssues(c);
    if |issues| == 0 then None else Some(InvalidCable(c.id, CableLabel(c), issues))
  }

  function IsInvalid(c: Cable): bool
  {
    !CableValid(c)
  }

  datatype CableValidation = CableValidation(
    totalCables: nat,
    validCables: int,
    invalidCablesCount: nat,
    invalidCables: seq<InvalidCable>,
    validationPassed: bool)

  /** The body of the cable loop: the issues of one cable, and its entry in
      the invalid list when it has any. */
  method CheckCable(cable: Cable) returns (entry: Option<InvalidCable>)
    ensures entry == InvalidEntry(cable)
  {
    var issues: seq<CableIssue> := [];
    if !cable.hasATermination {
      issues := issues + [MissingATermination];
    }
    if !cable.hasBTermination {
      issues := issues + [MissingBTermination];
    }
    if cable.cableType.None? || cable.cableType.value == "" {
      issues := issues + [MissingCableType];
    }
    assert issues == CableIssues(cable);
    entry := None;
    if |issues| > 0 {
      var name := if cable.cableLabel.Some? && cable.cableLabel.value != "" then cable.cableLabel.value
        else "Cable #" + IntToString(cable.id);
      entry := Some(InvalidCable(cable.id, name, issues));
    }
  }

  /** `validate_cable_connections` */
  method ValidateCableConnections(cables: seq<Cable>) returns (v: CableValidation)
    ensures v.totalCables == |cables|
    ensures v.invalidCablesCount == Count(cables, IsInvalid)
    ensures v.validCables == Count(cables, CableValid)
    ensures v.invalidCables == Take(Collect(cables, InvalidEntry), 50)
    ensures v.validationPassed <==> forall i :: 0 <= i < |cables| ==> CableValid(cables[i])
  {
    var invalid: seq<InvalidCable> := [];
    for k := 0 to |cables|
      invariant invalid == Collect(cables[..k], InvalidEntry)
    {
      var entry := CheckCable(cables[k]);
      CollectPrefix(cables, k, InvalidEntry);
      if entry.Some? {
        invalid := invalid + [entry.value];
      }
    }
    assert cables[..|cables|] == cables;
    CableCounts(cables);
    v := CableValidation(|cables|, |cables| - |invalid|, |invalid|, Take(invalid, 50), |invalid| == 0);
  }

  /** One invalid entry per invalid cable: the valid and invalid counts split
      the cables, and validation passes exactly when no cable is invalid. */
  lemma CableCounts(cables: seq<Cable>)
    ensures |Collect(cables, InvalidEntry)| == Count(cables, IsInvalid)
    ensures Count(cables, CableValid) + Count(cables, IsInvalid) == |cables|
    ensures Count(cables, IsInvalid) == 0 <==> forall i :: 0 <= i < |cables| ==> CableValid(cables[i])
  {
    CollectLength(cables, InvalidEntry, IsInvalid);
    CountSplit(cables, CableValid, IsInvalid);
    CountPositive(cables, IsInvalid);
  }

  /** A cable gets an entry exactly when some check fails, and the entry
      lists exactly the failed checks. */
  lemma InvalidEntryExact(c: Cable)
    ensures InvalidEntry(c).Some? <==> !CableValid(c)
    ensures InvalidEntry(c).Some? ==> InvalidEntry(c).value.issues == CableIssues(c)
  {
    if !CableValid(c) {
      assert |CableIssues(c)| > 0 by {
        if !c.hasATermination {
          assert MissingATermination in CableIssues(c);
        } else if !c.hasBTermination {
          assert MissingBTermination in CableIssues(c);
        } else {
          assert MissingCableType in CableIssues(c);
        }
      }
    }
  }

  // ---------------------------------------------------------------------------
  // Recommendations

  datatype Priority = PriorityHigh | PriorityMedium

  datatype RecommendationKind = AssignPrimaryIps | AddInterfaces | FixDuplicateSerials

  /** A recommendation; its title carries `count`, and its description, action
      and impact texts are fixed per kind. */
  datatype Recommendation = Recommendation(kind: RecommendationKind, priority: Priority, category: string, count: nat)

  function KindRank(k: RecommendationKind): nat
  {
    match k
    case AssignPrimaryIps => 0
    case AddInterfaces => 1
    case FixDuplicateSerials => 2
  }

  predicate ActiveWithoutIp(d: Device)
  {
    IsActive(d) && !HasPrimaryIp(d)
  }

  predicate ActiveWithoutInterfaces(d: Device)
  {
    IsActive(d) && d.interfaceCount == 0
  }

  /** The count a recommendation of the given kind is about. */
  function CountFor(devices: seq<Device>, k: RecommendationKind): nat
  {
    match k
    case AssignPrimaryIps => Count(devices, ActiveWithoutIp)
    case AddInterfaces => Count(devices, ActiveWithoutInterfaces)
    case FixDuplicateSerials => |DuplicateKeys(devices, SerialKey)|
  }

  function PriorityOf(k: RecommendationKind): Priority
  {
    if k == AddInterfaces then PriorityMedium else PriorityHigh
  }

  function CategoryOf(k: RecommendationKind): string
  {
    if k == FixDuplicateSerials then "accuracy" else "completeness"
  }

  /** The recommendation of each kind, in the order the source checks them. */
  const Kinds: seq<RecommendationKind> := [AssignPrimaryIps, AddInterfaces, FixDuplicateSerials]

  function Candidate(devices: seq<Device>): RecommendationKind -> Recommendation
  {
    k => Recommendation(k, PriorityOf(k), CategoryOf(k), CountFor(devices, k))
  }

  function IsNeeded(r: Recommendation): bool
  {
    r.count > 0
  }

  /** The recommendations issued: every candidate whose count is positive. */
  function Recommendations(devices: seq<Device>): seq<Recommendation>
  {
    Filter(MapList(Kinds, Candidate(devices)), IsNeeded)
  }

  /** `get_data_quality_recommendations` */
  method GetDataQualityRecommendations(devices: seq<Device>) returns (recs: seq<Recommendation>)
    ensures recs == Recommendations(devices)
  {
    var c := MapList(Kinds, Candidate(devices));
    assert c == [c[0], c[1], c[2]];
    FilterStep([], c[0], IsNeeded);
    FilterStep([c[0]], c[1], IsNeeded);
    FilterStep([c[0], c[1]], c[2], IsNeeded);
    assert [c[0]] + [c[1]] == [c[0], c[1]];
    assert [c[0], c[1]] + [c[2]] == c;
    recs := [];
    var devicesNoIp := Count(devices, ActiveWithoutIp);
    if devicesNoIp > 0 {
      recs := recs + [Recommendation(AssignPrimaryIps, PriorityHigh, "completeness", devicesNoIp)];
    }
    var devicesNoInterfaces := Count(devices, ActiveWithoutInterfaces);
    if devicesNoInterfaces > 0 {
      recs := recs + [Recommendation(AddInterfaces, PriorityMedium, "completeness", devicesNoInterfaces)];
    }
    var duplicateSerialsCount := |DuplicateKeys(devices, SerialKey)|;
    if duplicateSerialsCount > 0 {
      recs := recs + [Recommendation(FixDuplicateSerials, PriorityHigh, "accuracy", duplicateSerialsCount)];
    }
  }

  /** A recommendation of a kind is issued exactly when its count is positive,
      and each carries its kind's priority, category and count. */
  lemma RecommendationsExact(devices: seq<Device>, k: RecommendationKind)
    ensures (exists i :: 0 <= i < |Recommendations(devices)| && Recommendations(devices)[i].kind == k) <==>
      CountFor(devices, k) > 0
    ensures forall r :: r in Recommendations(devices) ==>
      r == Recommendation(r.kind, PriorityOf(r.kind), CategoryOf(r.kind), CountFor(devices, r.kind))
  {
    var c := MapList(Kinds, Candidate(devices));
    var recs := Recommendations(devices);
    FilterMembers(c, IsNeeded);
    var n := KindRank(k);
    assert c[n].kind == k;
    if CountFor(devices, k) > 0 {
      assert c[n] in recs;
    }
    forall r | r in recs
      ensures r == Recommendation(r.kind, PriorityOf(r.kind), CategoryOf(r.kind), CountFor(devices, r.kind))
    {
      var i :| 0 <= i < |recs| && recs[i] == r;
      assert r in c;
    }
  }

  /** The recommendations come in the fixed order of their kinds, so there is
      at most one of each kind. */
  lemma RecommendationsOrdered(devices: seq<Device>)
    ensures forall i, j :: 0 <= i < j < |Recommendations(devices)| ==>
      KindRank(Recommendations(devices)[i].kind) < KindRank(Recommendations(devices)[j].kind)
  {
    var c := MapList(Kinds, Candidate(devices));
    FilterKeepsIncreasing(c, IsNeeded, (r: Recommendation) => KindRank(r.kind));
  }

  /** The duplicate-serial recommendation counts the same groups the quality
      report lists. */
  lemma RecommendationMatchesReport(devices: seq<Device>)
    ensures CountFor(devices, FixDuplicateSerials) == |DuplicateSerials(devices)|
  {
  }
}
