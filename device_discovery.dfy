/**
 * Prometheus file-based service discovery targets generated from the device
 * inventory: blackbox-exporter probes (icmp, http, https, camera snapshot) and
 * snmp-exporter targets. Each generated record is `{targets: [...], labels: {...}}`.
 */
module DeviceDiscovery {
  import opened Values
  import opened Inventory
  import opened Seqs

  /** One entry of a file-SD YAML file. */
  datatype SdTarget = SdTarget(targets: seq<string>, labels: map<string, string>)

  const CameraSnapshotPath := "/stw-cgi/video.cgi?msubmenu=snapshot&action=view&chn=0"

  /** `device.get('name', ip)`. */
  function DeviceName(d: Device): string
  {
    GetOr(d.name, Ip(d))
  }

  function HttpsPort(d: Device): int
  {
    GetOr(d.httpsPort, 443)
  }

  /** The camera probe falls back to the device's http port, then to 80. */
  function CameraPort(d: Device): int
  {
    GetOr(d.cameraHttpPort, HttpPort(d))
  }

  // An absent 'modules' key counts as ['icmp'] for the icmp test and as [] for the others.
  predicate WantsIcmp(d: Device)
  {
    CheckType(d) == "icmp" || "icmp" in GetOr(d.modules, {"icmp"})
  }

  predicate WantsHttp(d: Device)
  {
    CheckType(d) == "http" || "http" in GetOr(d.modules, {})
  }

  predicate WantsHttps(d: Device)
  {
    CheckType(d) == "https" || "https" in GetOr(d.modules, {})
  }

  predicate WantsCameraCheck(d: Device)
  {
    "camera_http_check" in GetOr(d.modules, {})
  }

  function ProbeLabels(d: Device, checkModule: string): map<string, string>
  {
    map["device_name" := DeviceName(d), "check_module" := checkModule]
  }

  function IcmpTarget(d: Device): SdTarget
  {
    SdTarget([Ip(d)], ProbeLabels(d, "icmp_ping"))
  }

  function HttpTarget(d: Device): SdTarget
  {
    SdTarget([HttpUrl(d)], ProbeLabels(d, "http_2xx"))
  }

  function HttpsTarget(d: Device): SdTarget
  {
    SdTarget([HttpsUrl(d)], ProbeLabels(d, "http_2xx"))
  }

  function CameraTarget(d: Device): SdTarget
  {
    SdTarget([CameraUrl(d)], ProbeLabels(d, "camera_http_check"))
  }

  function HttpUrl(d: Device): string
  {
    "http://" + Ip(d) + ":" + IntToString(HttpPort(d)) + GetOr(d.httpPath, "/")
  }

  function HttpsUrl(d: Device): string
  {
    "https://" + Ip(d) + ":" + IntToString(HttpsPort(d)) + GetOr(d.httpsPath, "/")
  }

  function CameraUrl(d: Device): string
  {
    "http://" + Ip(d) + ":" + IntToString(CameraPort(d)) + GetOr(d.cameraHttpPath, CameraSnapshotPath)
  }

  /**
   * Position of a probe in the per-device order icmp, http, https, camera,
   * read back from the record alone (module label, then URL scheme).
   */
  function Rank(t: SdTarget): nat
  {
    var m := Lookup(t.labels, "check_module", "");
    if m == "icmp_ping" then 0
    else if m == "http_2xx" then (if |t.targets| == 1 && "https://" <= t.targets[0] then 2 else 1)
    else 3
  }

  /** The blackbox records one inventory entry contributes, in the order icmp, http, https, camera. */
  function DeviceBlackboxTargets(d: Device): (r: seq<SdTarget>)
    ensures !HasIp(d) ==> r == []
    ensures |r| <= 4
  {
    if !HasIp(d) then []
    else
      Opt(WantsIcmp(d), IcmpTarget(d))
      + Opt(WantsHttp(d), HttpTarget(d))
      + Opt(WantsHttps(d), HttpsTarget(d))
      + Opt(WantsCameraCheck(d), CameraTarget(d))
  }

  /** The four probe records are told apart by their rank alone. */
  lemma ProbeRanks(d: Device)
    ensures Rank(IcmpTarget(d)) == 0 && Rank(HttpTarget(d)) == 1
    ensures Rank(HttpsTarget(d)) == 2 && Rank(CameraTarget(d)) == 3
  {
    assert HttpUrl(d)[4] == ':';
    assert HttpsUrl(d)[..8] == "https://";
  }

  /** The probes of one device come in the fixed order icmp, http, https, camera. */
  lemma DeviceBlackboxOrder(d: Device)
    ensures var r := DeviceBlackboxTargets(d);
      forall i, j :: 0 <= i < j < |r| ==> Rank(r[i]) < Rank(r[j])
  {
    ProbeRanks(d);
    OptsInOrder(Rank, WantsIcmp(d), IcmpTarget(d), WantsHttp(d), HttpTarget(d),
                WantsHttps(d), HttpsTarget(d), WantsCameraCheck(d), CameraTarget(d));
  }

  /** Each record names exactly one target and carries the device name and the probe module. */
  lemma DeviceBlackboxShape(d: Device, t: SdTarget)
    requires t in DeviceBlackboxTargets(d)
    ensures |t.targets| == 1
    ensures t.labels.Keys == {"device_name", "check_module"}
    ensures t.labels["device_name"] == DeviceName(d)
  {
  }

  /** Which probes a device gets, each present exactly when the source's condition holds. */
  lemma DeviceBlackboxProbes(d: Device)
    ensures IcmpTarget(d) in DeviceBlackboxTargets(d) <==> HasIp(d) && WantsIcmp(d)
    ensures HttpTarget(d) in DeviceBlackboxTargets(d) <==> HasIp(d) && WantsHttp(d)
    ensures HttpsTarget(d) in DeviceBlackboxTargets(d) <==> HasIp(d) && WantsHttps(d)
    ensures CameraTarget(d) in DeviceBlackboxTargets(d) <==> HasIp(d) && WantsCameraCheck(d)
  {
    ProbeRanks(d);
    var r := DeviceBlackboxTargets(d);
    forall t | t in r
      ensures Rank(t) == 0 ==> t == IcmpTarget(d) && WantsIcmp(d)
      ensures Rank(t) == 1 ==> t == HttpTarget(d) && WantsHttp(d)
      ensures Rank(t) == 2 ==> t == HttpsTarget(d) && WantsHttps(d)
      ensures Rank(t) == 3 ==> t == CameraTarget(d) && WantsCameraCheck(d)
    {
    }
  }

  /** What `generate_blackbox_targets` returns: the devices' records, device after device. */
  function BlackboxTargets(devices: seq<Device>): (r: seq<SdTarget>)
    ensures |r| <= 4 * |devices|
  {
    FlatMapLength(DeviceBlackboxTargets, devices, 4);
    FlatMap(DeviceBlackboxTargets, devices)
  }

  /**
   * One pass of the loop in `generate_blackbox_targets`: the appends one device
   * makes to the target list (none when its ip is missing or empty).
   */
  method AppendBlackboxTargets(targets: seq<SdTarget>, device: Device) returns (extended: seq<SdTarget>)
    ensures extended == targets + DeviceBlackboxTargets(device)
  {
    extended := targets;
    var ip := device.ip;
    var checkType := GetOr(device.checkType, "icmp");
    if !Truthy(ip) {
      return;
    }

    if checkType == "icmp" || "icmp" in GetOr(device.modules, {"icmp"}) {
      extended := extended + [IcmpTarget(device)];
    }
    ghost var icmp := Opt(WantsIcmp(device), IcmpTarget(device));
    assert extended == targets + icmp;

    if checkType == "http" || "http" in GetOr(device.modules, {}) {
      extended := extended + [HttpTarget(device)];
    }
    ghost var http := Opt(WantsHttp(device), HttpTarget(device));
    assert extended == targets + icmp + http;

    if checkType == "https" || "https" in GetOr(device.modules, {}) {
      extended := extended + [HttpsTarget(device)];
    }
    ghost var https := Opt(WantsHttps(device), HttpsTarget(device));
    assert extended == targets + icmp + http + https;

    if "camera_http_check" in GetOr(device.modules, {}) {
      extended := extended + [CameraTarget(device)];
    }
    ghost var camera := Opt(WantsCameraCheck(device), CameraTarget(device));
    AppendFour(targets, icmp, http, https, camera);
  }

  /** `generate_blackbox_targets`: one loop pass per device, in inventory order. */
  method GenerateBlackboxTargets(devices: seq<Device>) returns (targets: seq<SdTarget>)
    ensures targets == BlackboxTargets(devices)
  {
    targets := [];
    for i := 0 to |devices|
      invariant targets == FlatMap(DeviceBlackboxTargets, devices[..i])
    {
      targets := AppendBlackboxTargets(targets, devices[i]);
      FlatMapPrefix(DeviceBlackboxTargets, devices, i);
    }
    assert devices[..|devices|] == devices;
  }

  /** Generation distributes over concatenation of inventories: input order is kept. */
  lemma BlackboxTargetsAppend(a: seq<Device>, b: seq<Device>)
    ensures BlackboxTargets(a + b) == BlackboxTargets(a) + BlackboxTargets(b)
  {
    FlatMapAppend(DeviceBlackboxTargets, a, b);
  }

  /** A device without an ip adds nothing wherever it stands in the inventory. */
  lemma NoIpNoBlackboxTarget(a: seq<Device>, d: Device, b: seq<Device>)
    requires !HasIp(d)
    ensures BlackboxTargets(a + [d] + b) == BlackboxTargets(a + b)
  {
    FlatMapSkip(DeviceBlackboxTargets, a, d, b);
  }

  /** Every record comes from a device of the inventory that has an ip, and names one target. */
  lemma BlackboxTargetsFromDevices(devices: seq<Device>, t: SdTarget)
    requires t in BlackboxTargets(devices)
    ensures exists i :: 0 <= i < |devices| && HasIp(devices[i]) && t in DeviceBlackboxTargets(devices[i])
    ensures |t.targets| == 1 && t.labels.Keys == {"device_name", "check_module"}
  {
    FlatMapMember(DeviceBlackboxTargets, devices, t);
    var i :| 0 <= i < |devices| && t in DeviceBlackboxTargets(devices[i]);
    DeviceBlackboxShape(devices[i], t);
  }

  // ----- snmp-exporter targets -----

  /** A device gets an snmp target iff its ip is truthy and `enable_snmp` is truthy (default False). */
  predicate SnmpEnabled(d: Device)
  {
    HasIp(d) && GetOr(d.enableSnmp, false)
  }

  function SnmpTarget(d: Device): (t: SdTarget)
    ensures |t.targets| == 1
    ensures t.labels.Keys == {"device_name", "snmp_module", "snmp_community"}
    ensures d.snmpPort.None? ==> t.targets[0] == Ip(d) + ":161"
    ensures d.snmpCommunity.None? ==> t.labels["snmp_community"] == "public"
    ensures d.snmpModule.None? ==> t.labels["snmp_module"] == "default"
    ensures t.labels["device_name"] == DeviceName(d)
  {
    SdTarget([Ip(d) + ":" + IntToString(GetOr(d.snmpPort, 161))],
             map["device_name" := DeviceName(d),
                 "snmp_module" := GetOr(d.snmpModule, "default"),
                 "snmp_community" := GetOr(d.snmpCommunity, "public")])
  }

  /** The snmp record one device contributes: one when it qualifies, none otherwise. */
  function DeviceSnmpTargets(d: Device): (r: seq<SdTarget>)
    ensures r != [] <==> SnmpEnabled(d)
    ensures r != [] ==> r == [SnmpTarget(d)]
  {
    Opt(SnmpEnabled(d), SnmpTarget(d))
  }

  /** What `generate_snmp_targets` returns. */
  function SnmpTargets(devices: seq<Device>): (r: seq<SdTarget>)
    ensures |r| <= |devices|
  {
    FlatMapLength(DeviceSnmpTargets, devices, 1);
    FlatMap(DeviceSnmpTargets, devices)
  }

  /** `generate_snmp_targets`: devices that do not qualify are skipped with `continue`. */
  method GenerateSnmpTargets(devices: seq<Device>) returns (targets: seq<SdTarget>)
    ensures targets == SnmpTargets(devices)
  {
    targets := [];
    for i := 0 to |devices|
      invariant targets == FlatMap(DeviceSnmpTargets, devices[..i])
    {
      FlatMapPrefix(DeviceSnmpTargets, devices, i);
      var device := devices[i];
      var ip := device.ip;
      if !Truthy(ip) || !GetOr(device.enableSnmp, false) {
        continue;
      }
      targets := targets + [SnmpTarget(device)];
    }
    assert devices[..|devices|] == devices;
  }

  /**
   * Exactly one snmp record per device with a truthy ip and a truthy
   * `enable_snmp`, in inventory order; no other device contributes.
   */
  lemma SnmpOnePerEnabledDevice(devices: seq<Device>)
    ensures |SnmpTargets(devices)| == |Filter(SnmpEnabled, devices)|
    ensures forall i :: 0 <= i < |Filter(SnmpEnabled, devices)| ==>
      SnmpTargets(devices)[i] == SnmpTarget(Filter(SnmpEnabled, devices)[i])
  {
    FlatMapOptIsMapFilter(DeviceSnmpTargets, SnmpEnabled, SnmpTarget, devices);
  }
}
