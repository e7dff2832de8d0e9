/**
 * Migration of the device inventory to an Uptime Kuma import file: every
 * device with an ip becomes a ping monitor, possibly a web monitor, and the
 * monitors its device type calls for (camera RTSP and API, NVR ports, switch
 * SNMP port).
 */
module UptimeKuma {
  import opened Values
  import opened Inventory
  import opened Seqs

  /** What a monitor probes: its "type" with the keys that go with it. */
  datatype Probe =
    | Ping(hostname: string)              // "type": "ping", "port": None
    | Http(url: string)                   // "type": "http"
    | Port(hostname: string, port: int)   // "type": "port"

  /** One Uptime Kuma monitor. */
  datatype Monitor = Monitor(
    name: string,
    probe: Probe,
    interval: nat,
    retryInterval: nat,
    maxRetries: nat,
    timeout: nat,
    active: bool,
    tags: seq<string>,
    description: string)

  /** The import file. Notifications and tags are left for manual set-up and stay empty. */
  datatype KumaConfig = KumaConfig(
    version: string,
    monitors: seq<Monitor>,
    notifications: seq<string>,
    tags: seq<string>)

  const KumaVersion := "1.21.0"

  /** The ports probed on every NVR, in this order. */
  const NvrPorts: seq<int> := [80, 8000, 8080, 37777]

  /** `device.get('name', '未知设备')`. */
  function KumaName(d: Device): string
  {
    GetOr(d.name, "未知设备")
  }

  /** `device.get('type', 'unknown')`. */
  function KumaType(d: Device): string
  {
    GetOr(d.deviceType, "unknown")
  }

  /** The web monitor is wanted for an http(s) check type or an `http_2xx` module. */
  predicate WantsWeb(d: Device)
  {
    CheckType(d) in {"http", "https"} || "http_2xx" in GetOr(d.modules, {})
  }

  /** `http_port`, else 80 for an http check and 443 for anything else. */
  function WebPort(d: Device): int
  {
    GetOr(d.httpPort, if CheckType(d) == "http" then 80 else 443)
  }

  /** The web URL's scheme is the check type itself. */
  function WebUrl(d: Device): string
  {
    CheckType(d) + "://" + Ip(d) + ":" + IntToString(WebPort(d)) + GetOr(d.httpPath, "/")
  }

  /** `camera_http_port`, default 80. */
  function CameraApiPort(d: Device): int
  {
    GetOr(d.cameraHttpPort, 80)
  }

  /** A camera gets an API monitor only when its camera port differs from its http port. */
  predicate WantsCameraApi(d: Device)
  {
    CameraApiPort(d) != HttpPort(d)
  }

  function CameraApiUrl(d: Device): string
  {
    "http://" + Ip(d) + ":" + IntToString(CameraApiPort(d)) + "/"
  }

  // The monitor records, built from the values the conversion reads.

  /** Every monitor is named `"{name} - {what}"`. */
  function MonitorName(name: string, what: string): string
  {
    name + " - " + what
  }

  /** `s` is a monitor name for the device called `name`. */
  predicate NamedAfter(s: string, name: string)
  {
    |s| > |name + " - "| && s[..|name + " - "|] == name + " - "
  }

  function PingMonitor(name: string, ip: string, deviceType: string): Monitor
  {
    Monitor(MonitorName(name, "Ping检查"), Ping(ip), 60, 60, 3, 10, true,
      [deviceType, "ping"], deviceType + "设备的网络连通性检查")
  }

  function WebMonitor(name: string, url: string, deviceType: string): Monitor
  {
    Monitor(MonitorName(name, "Web界面"), Http(url), 120, 120, 3, 15, true,
      [deviceType, "web"], deviceType + "设备的Web管理界面检查")
  }

  function RtspMonitor(name: string, ip: string): Monitor
  {
    Monitor(MonitorName(name, "RTSP流"), Port(ip, 554), 180, 180, 2, 10, true,
      ["camera", "rtsp"], "摄像头RTSP视频流端口检查")
  }

  function CameraApiMonitor(name: string, url: string): Monitor
  {
    Monitor(MonitorName(name, "摄像头API"), Http(url), 300, 300, 2, 20, true,
      ["camera", "api"], "摄像头API接口检查")
  }

  function NvrPortMonitor(name: string, ip: string, port: int): Monitor
  {
    Monitor(MonitorName(name, "端口" + IntToString(port)), Port(ip, port), 240, 240, 2, 15, true,
      ["nvr", "port-" + IntToString(port)], "NVR设备端口" + IntToString(port) + "检查")
  }

  function SwitchSnmpMonitor(name: string, ip: string): Monitor
  {
    Monitor(MonitorName(name, "SNMP"), Port(ip, 161), 120, 120, 3, 10, true,
      ["switch", "snmp"], "交换机SNMP服务检查")
  }

  /** One port monitor per listed port, in the order of the list. */
  function NvrPortMonitors(name: string, ip: string, ports: seq<int>): (r: seq<Monitor>)
    ensures |r| == |ports|
    ensures forall i :: 0 <= i < |ports| ==> r[i] == NvrPortMonitor(name, ip, ports[i])
  {
    Map(port => NvrPortMonitor(name, ip, port), ports)
  }

  /** The monitors that depend on the device type; other types get none. */
  function TypeMonitors(d: Device): (r: seq<Monitor>)
    ensures |r| <= 4
    ensures KumaType(d) != "ip_camera" && KumaType(d) != "nvr" && KumaType(d) != "switch" ==> r == []
  {
    var name, ip := KumaName(d), Ip(d);
    if KumaType(d) == "ip_camera" then
      [RtspMonitor(name, ip)] + Opt(WantsCameraApi(d), CameraApiMonitor(name, CameraApiUrl(d)))
    else if KumaType(d) == "nvr" then
      NvrPortMonitors(name, ip, NvrPorts)
    else if KumaType(d) == "switch" then
      [SwitchSnmpMonitor(name, ip)]
    else
      []
  }

  /** What `convert_device_to_uptime_kuma` returns for one device. */
  function DeviceMonitors(d: Device): (r: seq<Monitor>)
    ensures r == [] <==> !HasIp(d)
    ensures HasIp(d) ==> r[0] == PingMonitor(KumaName(d), Ip(d), KumaType(d))
  {
    if !HasIp(d) then []
    else
      [PingMonitor(KumaName(d), Ip(d), KumaType(d))]
      + Opt(WantsWeb(d), WebMonitor(KumaName(d), WebUrl(d), KumaType(d)))
      + TypeMonitors(d)
  }

  /** How many monitors a device contributes. */
  function MonitorCount(d: Device): nat
  {
    if !HasIp(d) then 0
    else
      1 + (if WantsWeb(d) then 1 else 0)
      + (if KumaType(d) == "ip_camera" then (if WantsCameraApi(d) then 2 else 1)
         else if KumaType(d) == "nvr" then |NvrPorts|
         else if KumaType(d) == "switch" then 1
         else 0)
  }

  lemma DeviceMonitorsCount(d: Device)
    ensures |DeviceMonitors(d)| == MonitorCount(d)
    ensures |DeviceMonitors(d)| <= 6
  {
  }

  /** The properties every generated monitor has. */
  predicate WellShaped(m: Monitor, name: string)
  {
    && m.active
    && m.retryInterval == m.interval
    && m.interval in {60, 120, 180, 240, 300}
    && m.maxRetries in {2, 3}
    && |m.tags| == 2
    && NamedAfter(m.name, name)
  }

  lemma MonitorNameNamedAfter(name: string, what: string)
    requires what != ""
    ensures NamedAfter(MonitorName(name, what), name)
  {
    assert MonitorName(name, what)[..|name + " - "|] == name + " - ";
  }

  /** Where a type-specific monitor comes from. */
  lemma TypeMonitorsMember(d: Device, m: Monitor)
    requires m in TypeMonitors(d)
    ensures
      || (KumaType(d) == "ip_camera" && m == RtspMonitor(KumaName(d), Ip(d)))
      || (KumaType(d) == "ip_camera" && WantsCameraApi(d) && m == CameraApiMonitor(KumaName(d), CameraApiUrl(d)))
      || (KumaType(d) == "nvr" && exists i :: 0 <= i < |NvrPorts| && m == NvrPortMonitor(KumaName(d), Ip(d), NvrPorts[i]))
      || (KumaType(d) == "switch" && m == SwitchSnmpMonitor(KumaName(d), Ip(d)))
  {
  }

  /** Where a monitor of a device comes from. */
  lemma DeviceMonitorsMember(d: Device, m: Monitor)
    requires m in DeviceMonitors(d)
    ensures HasIp(d)
    ensures
      || m == PingMonitor(KumaName(d), Ip(d), KumaType(d))
      || (WantsWeb(d) && m == WebMonitor(KumaName(d), WebUrl(d), KumaType(d)))
      || m in TypeMonitors(d)
  {
  }

  /**
   * Every monitor of a device is active, retries at its own interval, carries
   * two tags and is named after the device.
   */
  lemma DeviceMonitorsShape(d: Device, m: Monitor)
    requires m in DeviceMonitors(d)
    ensures WellShaped(m, KumaName(d))
  {
    var name, ip := KumaName(d), Ip(d);
    DeviceMonitorsMember(d, m);
    if m in TypeMonitors(d) {
      TypeMonitorsMember(d, m);
      if KumaType(d) == "nvr" {
        var i :| 0 <= i < |NvrPorts| && m == NvrPortMonitor(name, ip, NvrPorts[i]);
        MonitorNameNamedAfter(name, "端口" + IntToString(NvrPorts[i]));
      } else if m == RtspMonitor(name, ip) {
        MonitorNameNamedAfter(name, "RTSP流");
      } else if m == SwitchSnmpMonitor(name, ip) {
        MonitorNameNamedAfter(name, "SNMP");
      } else {
        MonitorNameNamedAfter(name, "摄像头API");
      }
    } else if m == PingMonitor(name, ip, KumaType(d)) {
      MonitorNameNamedAfter(name, "Ping检查");
    } else {
      MonitorNameNamedAfter(name, "Web界面");
    }
  }

  /** The second tag of a type-specific monitor names its kind. */
  lemma TypeMonitorsTag(d: Device, m: Monitor)
    requires m in TypeMonitors(d)
    ensures m.tags[1] in {"rtsp", "api", "snmp"} || (m.tags[0] == "nvr" && |m.tags[1]| > 5)
  {
    TypeMonitorsMember(d, m);
  }

  /** Every device with an ip, and only such a device, is pinged, first. */
  lemma PingMonitorPresent(d: Device)
    ensures PingMonitor(KumaName(d), Ip(d), KumaType(d)) in DeviceMonitors(d) <==> HasIp(d)
  {
  }

  /** The web monitor is there exactly when the check type or the modules ask for it. */
  lemma WebMonitorPresent(d: Device)
    ensures WebMonitor(KumaName(d), WebUrl(d), KumaType(d)) in DeviceMonitors(d) <==> HasIp(d) && WantsWeb(d)
  {
    var web := WebMonitor(KumaName(d), WebUrl(d), KumaType(d));
    if web in DeviceMonitors(d) {
      DeviceMonitorsMember(d, web);
      if web in TypeMonitors(d) {
        TypeMonitorsTag(d, web);
      }
    }
  }

  /**
   * A camera gets the RTSP monitor, and the API monitor exactly when its
   * camera port differs from its http port.
   */
  lemma CameraMonitorsPresent(d: Device)
    ensures RtspMonitor(KumaName(d), Ip(d)) in DeviceMonitors(d) <==> HasIp(d) && KumaType(d) == "ip_camera"
    ensures CameraApiMonitor(KumaName(d), CameraApiUrl(d)) in DeviceMonitors(d) <==>
      HasIp(d) && KumaType(d) == "ip_camera" && WantsCameraApi(d)
  {
    var rtsp := RtspMonitor(KumaName(d), Ip(d));
    var api := CameraApiMonitor(KumaName(d), CameraApiUrl(d));
    if rtsp in DeviceMonitors(d) {
      DeviceMonitorsMember(d, rtsp);
      TypeMonitorsMember(d, rtsp);
    }
    if api in DeviceMonitors(d) {
      DeviceMonitorsMember(d, api);
      TypeMonitorsMember(d, api);
    }
  }

  /** An NVR gets one port monitor per NVR port; no other device gets any. */
  lemma NvrMonitorsPresent(d: Device, p: int)
    requires p in NvrPorts
    ensures NvrPortMonitor(KumaName(d), Ip(d), p) in DeviceMonitors(d) <==> HasIp(d) && KumaType(d) == "nvr"
  {
    var port := NvrPortMonitor(KumaName(d), Ip(d), p);
    if port in DeviceMonitors(d) {
      DeviceMonitorsMember(d, port);
      TypeMonitorsMember(d, port);
    }
    if HasIp(d) && KumaType(d) == "nvr" {
      var i :| 0 <= i < |NvrPorts| && NvrPorts[i] == p;
      assert TypeMonitors(d)[i] == port;
    }
  }

  /** A switch gets the SNMP port monitor; no other device does. */
  lemma SwitchMonitorPresent(d: Device)
    ensures SwitchSnmpMonitor(KumaName(d), Ip(d)) in DeviceMonitors(d) <==> HasIp(d) && KumaType(d) == "switch"
  {
    var snmp := SwitchSnmpMonitor(KumaName(d), Ip(d));
    if snmp in DeviceMonitors(d) {
      DeviceMonitorsMember(d, snmp);
      TypeMonitorsMember(d, snmp);
    }
  }

  /**
   * The web URL's scheme is the check type: a device that asks for the web
   * check only through the `http_2xx` module keeps the default check type and
   * gets an "icmp://" URL on port 443.
   */
  lemma WebUrlScheme(d: Device)
    ensures WebUrl(d)[..|CheckType(d) + "://"|] == CheckType(d) + "://"
    ensures d.checkType.None? && d.httpPort.None? ==>
      WebUrl(d) == "icmp://" + Ip(d) + ":443" + GetOr(d.httpPath, "/")
  {
    var scheme := CheckType(d) + "://";
    var rest := Ip(d) + ":" + IntToString(WebPort(d)) + GetOr(d.httpPath, "/");
    assert WebUrl(d) == scheme + rest;
    if d.checkType.None? && d.httpPort.None? {
      Port443();
    }
  }

  /** The default https port as `str()` renders it. */
  lemma Port443()
    ensures IntToString(443) == "443"
  {
    assert NatToString(443) == NatToString(44) + [DigitChar(3)];
    assert NatToString(44) == NatToString(4) + [DigitChar(4)];
  }

  /**
   * The conversion of one device, as written: the ping monitor, the web
   * monitor, then the type-specific ones.
   */
  method ConvertDeviceToUptimeKuma(device: Device) returns (monitors: seq<Monitor>)
    ensures monitors == DeviceMonitors(device)
  {
    monitors := [];
    var name := GetOr(device.name, "未知设备");
    var ip := GetOr(device.ip, "");
    var deviceType := GetOr(device.deviceType, "unknown");
    if ip == "" {
      return;
    }
    monitors := monitors + [PingMonitor(name, ip, deviceType)];

    var checkType := GetOr(device.checkType, "icmp");
    var modules := GetOr(device.modules, {});
    ghost var web := Opt(WantsWeb(device), WebMonitor(name, WebUrl(device), deviceType));
    if checkType in {"http", "https"} || "http_2xx" in modules {
      var httpPort := GetOr(device.httpPort, if checkType == "http" then 80 else 443);
      var httpPath := GetOr(device.httpPath, "/");
      var url := checkType + "://" + ip + ":" + IntToString(httpPort) + httpPath;
      monitors := monitors + [WebMonitor(name, url, deviceType)];
    }
    assert monitors == [PingMonitor(name, ip, deviceType)] + web;

    var typed := TypeSpecificMonitors(device, name, ip, deviceType);
    monitors := monitors + typed;
  }

  /** The device-type branch of the conversion. */
  method TypeSpecificMonitors(device: Device, name: string, ip: string, deviceType: string)
    returns (monitors: seq<Monitor>)
    requires name == KumaName(device) && ip == Ip(device) && deviceType == KumaType(device)
    ensures monitors == TypeMonitors(device)
  {
    monitors := [];
    if deviceType == "ip_camera" {
      monitors := monitors + [RtspMonitor(name, ip)];
      var cameraHttpPort := GetOr(device.cameraHttpPort, 80);
      if cameraHttpPort != GetOr(device.httpPort, 80) {
        var url := "http://" + ip + ":" + IntToString(cameraHttpPort) + "/";
        monitors := monitors + [CameraApiMonitor(name, url)];
      }
    } else if deviceType == "nvr" {
      var nvrPorts := NvrPorts;
      for i := 0 to |nvrPorts|
        invariant monitors == NvrPortMonitors(name, ip, nvrPorts[..i])
      {
        assert nvrPorts[..i + 1][..i] == nvrPorts[..i];
        monitors := monitors + [NvrPortMonitor(name, ip, nvrPorts[i])];
      }
      assert nvrPorts[..|nvrPorts|] == nvrPorts;
    } else if deviceType == "switch" {
      monitors := monitors + [SwitchSnmpMonitor(name, ip)];
    }
  }

  /** Every device's monitors, one device after the other. */
  function AllMonitors(devices: seq<Device>): (r: seq<Monitor>)
    ensures |r| <= 6 * |devices|
  {
    forall d | d in devices ensures |DeviceMonitors(d)| <= 6 {
      DeviceMonitorsCount(d);
    }
    FlatMapLength(DeviceMonitors, devices, 6);
    FlatMap(DeviceMonitors, devices)
  }

  /** The import file for an inventory. */
  method GenerateUptimeKumaConfig(devices: seq<Device>) returns (config: KumaConfig)
    ensures config.version == KumaVersion
    ensures config.monitors == AllMonitors(devices)
    ensures config.notifications == [] && config.tags == []
  {
    var allMonitors := [];
    for i := 0 to |devices|
      invariant allMonitors == FlatMap(DeviceMonitors, devices[..i])
    {
      FlatMapPrefix(DeviceMonitors, devices, i);
      var monitors := ConvertDeviceToUptimeKuma(devices[i]);
      allMonitors := allMonitors + monitors;
    }
    assert devices[..|devices|] == devices;
    config := KumaConfig(KumaVersion, allMonitors, [], []);
  }

  /** Migrating two inventories one after the other gives the concatenation of their monitors. */
  lemma AllMonitorsAppend(a: seq<Device>, b: seq<Device>)
    ensures AllMonitors(a + b) == AllMonitors(a) + AllMonitors(b)
  {
    FlatMapAppend(DeviceMonitors, a, b);
  }

  /**
   * Every monitor of the import file comes from a device with an ip, and has
   * the shape every monitor has.
   */
  lemma AllMonitorsFromDevices(devices: seq<Device>, m: Monitor)
    requires m in AllMonitors(devices)
    ensures exists i :: (0 <= i < |devices| && HasIp(devices[i]) && m in DeviceMonitors(devices[i])
      && WellShaped(m, KumaName(devices[i])))
  {
    FlatMapMember(DeviceMonitors, devices, m);
    var i :| 0 <= i < |devices| && m in DeviceMonitors(devices[i]);
    DeviceMonitorsShape(devices[i], m);
  }

  /** Each device with an ip contributes its ping monitor to the import file. */
  lemma EveryDeviceIsPinged(devices: seq<Device>, i: int)
    requires 0 <= i < |devices| && HasIp(devices[i])
    ensures PingMonitor(KumaName(devices[i]), Ip(devices[i]), KumaType(devices[i])) in AllMonitors(devices)
  {
    FlatMapMember(DeviceMonitors, devices, PingMonitor(KumaName(devices[i]), Ip(devices[i]), KumaType(devices[i])));
  }
}
