# cctv-allin monitoring core, in Dafny

This project models the parts of the cctv-allin CCTV monitoring stack that turn
a device inventory into monitoring configuration, and the parts that turn
Alertmanager alerts into chat messages. It proves properties about each.

- **Device discovery** (`device_discovery.dfy`). `generate_blackbox_targets`
  builds the Prometheus file-based service-discovery records for the Blackbox
  exporter. Each device with an ip gets up to four probes: icmp, http, https
  and the camera snapshot check. `generate_snmp_targets` builds one SNMP
  exporter record per device that has an ip and `enable_snmp`. Both are loops
  over the inventory. Each is proved equal to a function that concatenates
  the records of every device.
- **Uptime Kuma migration** (`uptime_kuma.dfy`).
  `convert_device_to_uptime_kuma` turns one inventory entry into monitors:
  - a ping monitor for every device with an ip;
  - a web monitor when the check type or the modules ask for one;
  - RTSP and camera-API monitors for cameras;
  - four port monitors for NVRs;
  - an SNMP port monitor for switches.

  `generate_uptime_kuma_config` concatenates the monitors of all devices into
  the import file.
- **Alert de-duplication** (`alert_gate.dfy`). `should_send_alert` keeps one
  slot per alert in the key-value store. The store is a class with a map
  field. Its five-minute expiry is an explicit `Expire` step. The lemmas show
  the following:
  - for calls one after another, a firing alert is sent at most once
    between two clears of its slot;
  - a resolve re-arms the alert;
  - the alert key `instance_alertname` can merge two different alerts when
    the instance holds an underscore.
- **Alertmanager formatting** (`alert_format.dfy`).
  `format_alertmanager_payload` renders one markdown block per alert for
  DingTalk, WeChat and Feishu. It joins the blocks with a separator. When a
  resolved payload yields no blocks, it falls back to a short resolved note.
- **Webhook routing** (`webhook.dfy`). `/webhook/<platform>` picks the
  backend and its configured URL, then answers 200, 400 or 500. The result
  of the network send is an input.

Shared pieces:
- `values.dfy`: Python's `dict.get` defaults, string truthiness and
  `str(int)`;
- `inventory.dfy`: the inventory entry;
- `seqs.dfy`: lists built by repeated `append`/`extend`;
- `text.dfy`: `join`, `replace` and `split(...)[0]`.

The web monitor's URL is modelled as written. Its scheme is whatever the
check type holds. Take a device that has neither `check_type` nor
`http_port`, and asks for the web check through the `http_2xx` module: it
gets an `icmp://ip:443` URL followed by its path (`UptimeKuma.WebUrlScheme`).

## Model

| member | source | states |
|---|---|---|
| DeviceDiscovery.DeviceBlackboxTargets | scripts/monitoring/device_discovery.py:40-91 | a device without a truthy ip contributes nothing; a device contributes at most four records |
| DeviceDiscovery.DeviceBlackboxProbes | scripts/monitoring/device_discovery.py:47-91 | each of the icmp, http, https and camera records is produced exactly when the device has an ip and that probe's condition holds (icmp: check type icmp or `icmp` in modules, with modules defaulting to `['icmp']`) |
| DeviceDiscovery.DeviceBlackboxOrder | scripts/monitoring/device_discovery.py:50-91 | the records of one device come in the order icmp, http, https, camera |
| DeviceDiscovery.DeviceBlackboxShape | scripts/monitoring/device_discovery.py:52-91 | every record names exactly one target and carries exactly the labels `device_name` (the name, else the ip) and `check_module` |
| DeviceDiscovery.BlackboxTargets | scripts/monitoring/device_discovery.py:37-93 | the result has at most four records per device |
| DeviceDiscovery.AppendBlackboxTargets | scripts/monitoring/device_discovery.py:41-91 | one pass of the loop body extends the list by exactly that device's records |
| DeviceDiscovery.GenerateBlackboxTargets | scripts/monitoring/device_discovery.py:37-93 | the loop returns the concatenation, in inventory order, of every device's records |
| DeviceDiscovery.BlackboxTargetsAppend | scripts/monitoring/device_discovery.py:39-40 | generating for two inventories in a row is the concatenation of the results: inventory order is kept |
| DeviceDiscovery.NoIpNoBlackboxTarget | scripts/monitoring/device_discovery.py:47-48 | a device without an ip can be removed from any position without changing the output |
| DeviceDiscovery.BlackboxTargetsFromDevices | scripts/monitoring/device_discovery.py:37-93 | every output record comes from an inventory device with an ip, and names one target with the two labels |
| DeviceDiscovery.SnmpTarget | scripts/monitoring/device_discovery.py:101-118 | one target `ip:port` (port 161 by default) and exactly the labels `device_name`, `snmp_module` (default `default`) and `snmp_community` (default `public`) |
| DeviceDiscovery.DeviceSnmpTargets | scripts/monitoring/device_discovery.py:105-118 | a device contributes a record exactly when its ip and `enable_snmp` are truthy, and that record is its SNMP target |
| DeviceDiscovery.SnmpTargets | scripts/monitoring/device_discovery.py:95-119 | at most one record per device |
| DeviceDiscovery.GenerateSnmpTargets | scripts/monitoring/device_discovery.py:95-119 | the loop, with its `continue`, returns the concatenation of every device's SNMP record |
| DeviceDiscovery.SnmpOnePerEnabledDevice | scripts/monitoring/device_discovery.py:105-118 | the output is, element by element, the SNMP record of each device with a truthy ip and a truthy `enable_snmp`, in inventory order |
| UptimeKuma.NvrPortMonitors | scripts/migrate_to_uptime_kuma.py:115-131 | one port monitor per listed port, in the order of the list |
| UptimeKuma.TypeMonitors | scripts/migrate_to_uptime_kuma.py:77-148 | the type-specific monitors number at most four, and a device that is neither `ip_camera`, `nvr` nor `switch` gets none |
| UptimeKuma.DeviceMonitors | scripts/migrate_to_uptime_kuma.py:26-150 | the result is empty exactly when the ip is missing or empty; otherwise the first monitor is the ping monitor |
| UptimeKuma.DeviceMonitorsCount | scripts/migrate_to_uptime_kuma.py:38-150 | the number of monitors is the sum of the cases (1 ping, 0-1 web, 1-2 camera, 4 NVR, 1 switch), and never more than six |
| UptimeKuma.DeviceMonitorsShape | scripts/migrate_to_uptime_kuma.py:39-148 | every monitor is active, retries at its own interval, has interval 60/120/180/240/300, 2 or 3 retries, two tags, and a name `"{name} - ..."` |
| UptimeKuma.PingMonitorPresent | scripts/migrate_to_uptime_kuma.py:34-52 | the ping monitor is present exactly when the device has an ip |
| UptimeKuma.WebMonitorPresent | scripts/migrate_to_uptime_kuma.py:59-75 | the web monitor is present exactly when the device has an ip and its check type is http/https or its modules hold `http_2xx` |
| UptimeKuma.CameraMonitorsPresent | scripts/migrate_to_uptime_kuma.py:78-110 | a device gets the RTSP monitor exactly when it is an `ip_camera` with an ip; it gets the API monitor when, in addition, its camera port differs from its http port (both defaulting to 80) |
| UptimeKuma.NvrMonitorsPresent | scripts/migrate_to_uptime_kuma.py:113-131 | a port monitor for 80, 8000, 8080 or 37777 is present exactly when the device is an `nvr` with an ip |
| UptimeKuma.SwitchMonitorPresent | scripts/migrate_to_uptime_kuma.py:134-148 | the SNMP port monitor is present exactly when the device is a `switch` with an ip |
| UptimeKuma.WebUrlScheme | scripts/migrate_to_uptime_kuma.py:55-66 | the URL scheme is the check type; with neither check type nor http port set it is `icmp://ip:443` followed by the path |
| UptimeKuma.ConvertDeviceToUptimeKuma | scripts/migrate_to_uptime_kuma.py:26-150 | the method returns exactly the device's monitors as specified |
| UptimeKuma.TypeSpecificMonitors | scripts/migrate_to_uptime_kuma.py:77-148 | the camera/NVR/switch branch, including the loop over the NVR ports, appends exactly the type-specific monitors |
| UptimeKuma.AllMonitors | scripts/migrate_to_uptime_kuma.py:152-158 | at most six monitors per device |
| UptimeKuma.GenerateUptimeKumaConfig | scripts/migrate_to_uptime_kuma.py:152-168 | version `1.21.0`, the monitors of all devices in inventory order, and empty notification and tag lists |
| UptimeKuma.AllMonitorsAppend | scripts/migrate_to_uptime_kuma.py:156-158 | migrating two inventories in a row gives the concatenation of their monitors |
| UptimeKuma.AllMonitorsFromDevices | scripts/migrate_to_uptime_kuma.py:152-168 | every monitor of the import file comes from an inventory device with an ip and is well shaped for that device's name |
| UptimeKuma.EveryDeviceIsPinged | scripts/migrate_to_uptime_kuma.py:38-52 | each device with an ip has its ping monitor in the import file |
| AlertGate.CacheKeyInjective | scripts/notification/app.py:266 | two alert keys share a store slot exactly when they are equal |
| AlertGate.Gate | scripts/notification/app.py:264-283 | an alert is sent exactly when it is resolved, or firing with an empty slot; the only slot a call can add is its own |
| AlertGate.GateOutcome | scripts/notification/app.py:264-283 | firing: sent exactly when the slot is empty or holds an empty value, and the slot is filled afterwards; resolved: always sent and the slot is removed; any other status: not sent and nothing changes |
| AlertGate.GateFrame | scripts/notification/app.py:264-283 | no call changes a slot other than its own |
| AlertGate.FiringTwiceSendsOnce | scripts/notification/app.py:268-276 | two firings of one alert in a row are sent at most once |
| AlertGate.ResolvedRearms | scripts/notification/app.py:278-281 | after a resolve, the next firing of the same alert is sent |
| AlertGate.DedupStore.ShouldSendAlert | scripts/notification/app.py:264-283 | the answer and the new store contents are those of the gate above |
| AlertGate.DedupStore.Expire | scripts/notification/app.py:275 | the expiry of a slot removes that slot and nothing else |
| AlertGate.DedupStore.constructor | scripts/notification/app.py:262 | the store starts with whatever slots the shared database already holds, which may include slots filled by an earlier process |
| AlertGate.SendsBoundedByClears | scripts/notification/app.py:264-283 | over any sequence of calls and expiries, the firings sent for an alert are at most the resolves and expiries of its slot, plus one if the slot starts empty |
| AlertGate.AtMostOneSendWithoutClears | scripts/notification/app.py:268-276 | with no resolve or expiry in between, a firing alert is sent at most once, and never if its slot starts filled |
| AlertGate.AlertKey | scripts/notification/app.py:301 | the key is the instance (default `unknown`), an underscore, then the alert name (default `unknown`) |
| AlertGate.AlertStatus | scripts/notification/app.py:302 | the alert's status when present, otherwise `unknown` |
| AlertGate.UnlabelledAlert | scripts/notification/app.py:301-302 | an alert with neither labels nor status has key `unknown_unknown`, is not sent and changes nothing |
| AlertGate.AlertKeySplits | scripts/notification/app.py:301 | when no instance holds an underscore, equal keys mean equal instance and equal alert name |
| AlertGate.AlertKeyCollision | scripts/notification/app.py:301 | instance `host_a` with alert `Down` and instance `host` with alert `a_Down` share one key |
| AlertFormat.StartTimeClean | scripts/notification/app.py:175 | the shown start time contains neither a `.` nor a `T` |
| AlertFormat.RenderStartsWithHeader | scripts/notification/app.py:169-196 | every block opens with its title header and goes on after it |
| AlertFormat.GrafanaLink | scripts/notification/app.py:160-167 | the alert's `grafana_link` annotation wins; without it the link is empty when there is no external URL, and is the external URL itself when the alert lacks a name or an instance |
| AlertFormat.Blocks | scripts/notification/app.py:151-196 | never more blocks than alerts |
| AlertFormat.BlocksPerAlert | scripts/notification/app.py:151-196 | on DingTalk, WeChat and Feishu there is exactly one block per alert, in payload order; on any other platform there is none |
| AlertFormat.FullMessage | scripts/notification/app.py:198-203 | a resolved payload never gives an empty message; any message other than the fallback note is the join of the blocks |
| AlertFormat.FullMessageCases | scripts/notification/app.py:198-203 | the message is empty exactly when no alert was formatted and the payload is not resolved; with blocks it is their join; a resolved payload without blocks gets the fallback note |
| AlertFormat.MessageOpensWithFirstAlert | scripts/notification/app.py:169-198 | on a chat platform with alerts, the message starts with the first alert's header |
| AlertFormat.ResolvedHeading | scripts/notification/app.py:199-203 | the fallback note carries a `#### ` heading on DingTalk only |
| AlertFormat.FormatAlertmanagerPayload | scripts/notification/app.py:146-205 | the title is `Prometheus告警` and the message is the specified full message |
| AlertFormat.ReadAlertFields | scripts/notification/app.py:152-167 | the fields read from an alert: status and severity upper-cased, defaults `N/A`/`无详细描述`/common summary, and the Grafana link choice |
| AlertFormat.RenderMarkdown | scripts/notification/app.py:169-196 | on the three chat platforms, the `md +=` chain builds exactly the specified block |
| Text.JoinEmpty | scripts/notification/app.py:198 | joining non-empty parts gives the empty string exactly when there are no parts |
| Text.BeforeFirst | scripts/notification/app.py:175 | `split('.')[0]` is a prefix without `.` that ends at the first `.` or at the end |
| Text.ReplaceCharRemoves | scripts/notification/app.py:175 | `replace('T', ' ')` leaves no `T` behind |
| Webhook.Respond | scripts/notification/app.py:214-251 | the answer is 200, 400 or 500, with status `success` exactly for 200; a send happens exactly when there is a message, the platform is known and its backend is configured |
| Webhook.Receive | scripts/notification/app.py:208-255 | the answer is 200, 400 or 500, with status `success` exactly for 200; a request without a readable body gets 500 and sends nothing |
| Webhook.ReceiveIntended | scripts/notification/app.py:208-255 | the corrected endpoint keeps the same answer codes and the same handling of an unreadable body |
| Webhook.ReceiveStatus | scripts/notification/app.py:214-251 | 200 exactly for an empty message or a configured backend whose send succeeded; 400 exactly for an unknown platform with a message; 500 otherwise; a send happens exactly when there is a message and the platform is known and configured |
| Webhook.MissingBody | scripts/notification/app.py:253-255 | a request whose body cannot be read is answered 500 with the error text and sends nothing |
| Webhook.ChatPlatformSendsBlocks | scripts/notification/app.py:222-236 | on DingTalk, WeChat and Feishu with alerts and a configured URL, the backend receives the join of one block per alert, and the answer follows the send result |
| Webhook.ZabbixSendsOnlyResolved | scripts/notification/app.py:214-243 | as written, a `default`/`zabbix` request is answered 200 with nothing sent unless the payload is resolved; then DingTalk receives the fallback note under `Zabbix告警: Prometheus告警` |
| Webhook.ZabbixIntendedSendsBlocks | scripts/notification/app.py:237-241 | with DingTalk formatting, a `default`/`zabbix` request with alerts sends one block per alert to DingTalk under the Zabbix title |
| Webhook.IntendedAgreesElsewhere | scripts/notification/app.py:208-255 | for every platform other than `default`/`zabbix`, the corrected endpoint answers exactly as the one as written |

## Left out

- Reading the YAML inventory, writing the JSON/YAML output files, the
  command-line entry points and the usage guide are I/O. The devices are
  given as values.
- The discovery script's other functions are not part of this model:
  - `load_device_inventory` and `write_prometheus_sd_file` are file I/O;
  - `cache_discovery_results` and `get_cached_discovery_results` store the
    generated lists in the key-value store without changing them;
  - the second `main()` calls `load_devices` and `DEVICES_FILE`, which are
    not defined in the repository, and is never invoked.
- YAML `null`s and values of an unexpected type, such as a port given as a
  string or `enable_snmp: "no"`, are not modelled. Each inventory field is
  either absent or of the type the scripts expect.
- The `modules` list is modelled as a set. The scripts only ask whether a
  module is in it, so order and duplicates do not matter.
- A ping monitor's `"port": None` and each monitor's `"type"` string are
  represented by the probe kind (`Ping`, `Http`, `Port`).
- AlertGate.DedupStore.ShouldSendAlert: gate calls are modelled one after
  another, and each call's `get` and `setex` count as a single step. The
  receiver serves requests on several threads, so two overlapping firing
  requests for the same alert can both pass the `get`, and both get sent.
  `SendsBoundedByClears`, `AtMostOneSendWithoutClears` and
  `FiringTwiceSendsOnce` hold only for calls that do not overlap.
- The key-value store is a map. The five-minute time-to-live is the explicit
  `Expire` step. The connection, its failures and the clock are left out: the
  send time `now` is a parameter.
- `cache_device_status` and `get_cached_device_status` are not modelled.
  They are thin wrappers over the store with no logic.
- `alertmanager_webhook` is modelled only through its alert key and status
  lines. Its loop calls `send_notification`, which is defined nowhere in the
  repository.
- The network sends to DingTalk, WeChat and Feishu, their JSON bodies and
  their HTTP errors are left out. The endpoint model takes the
  `(success, message)` pair a send returns as an input.
- Flask request parsing, logging, `/health`, and configuration loading from
  file and environment are left out. The webhook URLs are inputs.
- `str.upper`, `str.lower` and `requests.utils.quote` are left
  uninterpreted: they are functions given as parameters.
- The only exception the endpoint model covers is an unreadable body. Other
  exceptions are not modelled.
- `configs/zabbix/web/zabbix.conf.php` holds only configuration and is not
  part of this model.

## Findings

| source | as written | input that shows it | evidently intended | confidence | as-written member | corrected member |
|---|---|---|---|---|---|---|
| scripts/notification/app.py:214,237-241 | the payload is formatted for the platform name as given, and the formatter renders blocks only for `dingtalk`, `wechat` and `feishu`, so a `default` or `zabbix` request gets no alert blocks | POST `/webhook/zabbix` with a firing payload holding one alert: the answer is 200 "No alerts to send" and nothing reaches DingTalk | since `default` and `zabbix` are sent to DingTalk, format them with the DingTalk layout | medium, not executed | Webhook.ZabbixSendsOnlyResolved (model: Webhook.Receive) | Webhook.ZabbixIntendedSendsBlocks (model: Webhook.ReceiveIntended) |
