/**
 * One entry of the device inventory (devices.yml): a mapping whose keys are
 * all optional. Both generators read the same record; each applies its own
 * defaults to the keys that are absent.
 */
module Inventory {
  import opened Values

  datatype Device = Device(
    name: Option<string>,            // 'name'
    ip: Option<string>,              // 'ip'
    deviceType: Option<string>,      // 'type'
    checkType: Option<string>,       // 'check_type'
    modules: Option<set<string>>,    // 'modules' (a list; only membership is ever asked)
    httpPort: Option<int>,           // 'http_port'
    httpPath: Option<string>,        // 'http_path'
    httpsPort: Option<int>,          // 'https_port'
    httpsPath: Option<string>,       // 'https_path'
    cameraHttpPort: Option<int>,     // 'camera_http_port'
    cameraHttpPath: Option<string>,  // 'camera_http_path'
    enableSnmp: Option<bool>,        // 'enable_snmp'
    snmpCommunity: Option<string>,   // 'snmp_community'
    snmpModule: Option<string>,      // 'snmp_module'
    snmpPort: Option<int>            // 'snmp_port'
  )

  /** `if not ip`: a device whose ip is missing or empty is skipped by every generator. */
  predicate HasIp(d: Device)
  {
    Truthy(d.ip)
  }

  /** The ip of a device that has one. */
  function Ip(d: Device): string
  {
    GetOr(d.ip, "")
  }

  /** `device.get('check_type', 'icmp')`: both generators default to a ping check. */
  function CheckType(d: Device): string
  {
    GetOr(d.checkType, "icmp")
  }

  /** `device.get('http_port', 80)`. */
  function HttpPort(d: Device): int
  {
    GetOr(d.httpPort, 80)
  }
}
