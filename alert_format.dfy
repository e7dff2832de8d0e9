/**
 * Formatting of an Alertmanager webhook payload into one markdown message per
 * chat platform: one block per alert for DingTalk, WeChat Work and Feishu,
 * joined by a horizontal rule, and a short "resolved" message when a resolved
 * payload produced no block.
 */
module AlertFormat {
  import opened Values
  import opened Seqs
  import opened Text

  /**
   * The library string functions the formatter calls, left uninterpreted:
   * `str.upper`, `str.lower` and `requests.utils.quote`.
   */
  datatype TextFns = TextFns(upper: string -> string, lower: string -> string, quote: string -> string)

  /**
   * One alert of the payload. An absent `labels` or `annotations` object reads
   * like an empty one, so both are plain maps.
   */
  datatype Alert = Alert(
    status: Option<string>,
    labels: map<string, string>,
    annotations: map<string, string>,
    startsAt: Option<string>)

  /** The Alertmanager payload; an absent `alerts` list reads like an empty one. */
  datatype Payload = Payload(
    status: Option<string>,
    alerts: seq<Alert>,
    commonLabels: map<string, string>,
    commonAnnotations: map<string, string>,
    externalUrl: Option<string>)

  const TitlePrefix := "Prometheus告警"
  const BlockSeparator := "\n\n---\n\n"

  /** The platforms that get one block per alert. */
  predicate Formatted(platform: string)
  {
    platform == "dingtalk" || platform == "wechat" || platform == "feishu"
  }

  // The values read from one alert, with their defaults.

  function AlertName(a: Alert): string
  {
    Lookup(a.labels, "alertname", "N/A")
  }

  function Instance(a: Alert): string
  {
    Lookup(a.labels, "instance", "N/A")
  }

  /** `[STATUS] alertname - instance`; the status defaults to 'firing'. */
  function AlertTitle(fns: TextFns, a: Alert): string
  {
    "[" + fns.upper(GetOr(a.status, "firing")) + "] " + AlertName(a) + " - " + Instance(a)
  }

  function Severity(fns: TextFns, a: Alert): string
  {
    fns.upper(Lookup(a.labels, "severity", "N/A"))
  }

  /** The payload-wide summary, used for alerts without a summary of their own. */
  function CommonSummary(p: Payload): string
  {
    Lookup(p.commonAnnotations, "summary", "N/A")
  }

  function Summary(p: Payload, a: Alert): string
  {
    Lookup(a.annotations, "summary", CommonSummary(p))
  }

  function Description(a: Alert): string
  {
    Lookup(a.annotations, "description", "无详细描述")
  }

  /** `starts_at.split('.')[0].replace('T', ' ')`: the time stamp without fractions, T as a space. */
  function ShownTime(startsAt: string): string
  {
    ReplaceAll(BeforeFirst(startsAt, '.'), "T", " ")
  }

  /** The start time shown for an alert; it defaults to 'N/A'. */
  function StartTime(a: Alert): string
  {
    ShownTime(GetOr(a.startsAt, "N/A"))
  }

  /** The shown start time holds neither a fraction point nor a 'T'. */
  lemma StartTimeClean(a: Alert)
    ensures '.' !in StartTime(a) && 'T' !in StartTime(a)
  {
    var head := BeforeFirst(GetOr(a.startsAt, "N/A"), '.');
    ReplaceCharRemoves(head, 'T', ' ');
    ReplaceCharKeeps(head, 'T', ' ', '.');
  }

  /** The Grafana explore query built from an alert's name and instance. */
  function ExploreLink(fns: TextFns, base: string, a: Alert): string
  {
    var queryExpr := "{alertname='" + AlertName(a) + "', instance='" + Instance(a) + "'}";
    ReplaceAll(base, "/alerts", "/explore")
      + "?orgId=1&left=%5B%22now-1h%22,%22now%22,%22Prometheus%22,%7B%22expr%22:%22"
      + fns.quote(AlertName(a) + queryExpr) + "%22%7D%5D"
  }

  /**
   * The link shown under an alert: its own `grafana_link` annotation, else an
   * explore link built on the payload's external URL when the alert is named
   * and has an instance, else the external URL itself (possibly empty).
   */
  function GrafanaLink(fns: TextFns, p: Payload, a: Alert): (link: string)
    ensures "grafana_link" in a.annotations ==> link == a.annotations["grafana_link"]
    ensures "grafana_link" !in a.annotations && GetOr(p.externalUrl, "") == "" ==> link == ""
    ensures "grafana_link" !in a.annotations && (AlertName(a) == "N/A" || Instance(a) == "N/A") ==>
      link == GetOr(p.externalUrl, "")
  {
    var base := GetOr(p.externalUrl, "");
    if "grafana_link" in a.annotations then a.annotations["grafana_link"]
    else if base != "" && AlertName(a) != "N/A" && Instance(a) != "N/A" then ExploreLink(fns, base, a)
    else base
  }

  /** What a block shows about one alert, as the formatter reads it from the alert. */
  datatype Fields = Fields(
    title: string,
    severity: string,
    summary: string,
    description: string,
    startTime: string,
    grafanaLink: string)

  function AlertFields(fns: TextFns, p: Payload, a: Alert): Fields
  {
    Fields(AlertTitle(fns, a), Severity(fns, a), Summary(p, a), Description(a), StartTime(a), GrafanaLink(fns, p, a))
  }

  /** The first line of a block: the alert title, set as a heading or in bold. */
  function Header(platform: string, title: string): string
  {
    if platform == "dingtalk" then "#### " + title + "\n\n"
    else "**" + title + "**\n"
  }

  /** The four field lines of a block: severity, summary, description and start time. */
  function FieldLines(platform: string, f: Fields): (lines: seq<string>)
    ensures |lines| == 4
  {
    if platform == "wechat" then
      [ ">级别: <font color=\"warning\">" + f.severity + "</font>\n",
        ">摘要: " + f.summary + "\n",
        ">详情: " + f.description + "\n",
        ">开始时间: " + f.startTime + "\n" ]
    else
      [ "- **级别**: " + f.severity + "\n",
        "- **摘要**: " + f.summary + "\n",
        "- **详情**: " + f.description + "\n",
        "- **开始时间**: " + f.startTime + "\n" ]
  }

  /** The Grafana line of a block. */
  function LinkLine(platform: string, link: string): string
  {
    if platform == "wechat" then ">[查看Grafana](" + link + ")\n"
    else "- **[查看Grafana](" + link + ")**\n"
  }

  /** A block: the header, the field lines one after the other, and the Grafana line when there is a link. */
  function Render(platform: string, f: Fields): string
  {
    var lines := FieldLines(platform, f);
    var md := Header(platform, f.title) + lines[0] + lines[1] + lines[2] + lines[3];
    if f.grafanaLink != "" then md + LinkLine(platform, f.grafanaLink) else md
  }

  /** Every block opens with its header and goes on after it. */
  lemma RenderStartsWithHeader(platform: string, f: Fields)
    ensures |Header(platform, f.title)| < |Render(platform, f)|
    ensures Render(platform, f)[..|Header(platform, f.title)|] == Header(platform, f.title)
  {
    var lines := FieldLines(platform, f);
    PrefixOfAppends(Header(platform, f.title), lines[0], lines[1], lines[2], lines[3], LinkLine(platform, f.grafanaLink));
  }

  /** The block of one alert. */
  function Block(fns: TextFns, p: Payload, a: Alert, platform: string): string
  {
    Render(platform, AlertFields(fns, p, a))
  }

  function BlockHeader(fns: TextFns, a: Alert, platform: string): string
  {
    Header(platform, AlertTitle(fns, a))
  }

  /** The blocks one alert contributes on a platform: one block, or none on other platforms. */
  function AlertBlocks(fns: TextFns, p: Payload, platform: string): Alert -> seq<string>
  {
    a => if Formatted(platform) then [Block(fns, p, a, platform)] else []
  }

  /** `alerts_markdown` after the loop. */
  function Blocks(fns: TextFns, p: Payload, platform: string): (r: seq<string>)
    ensures |r| <= |p.alerts|
  {
    FlatMapLength(AlertBlocks(fns, p, platform), p.alerts, 1);
    FlatMap(AlertBlocks(fns, p, platform), p.alerts)
  }

  /**
   * One block per alert, in payload order, on the three chat platforms; no
   * block on any other platform.
   */
  lemma BlocksPerAlert(fns: TextFns, p: Payload, platform: string)
    ensures Formatted(platform) ==> |Blocks(fns, p, platform)| == |p.alerts|
    ensures Formatted(platform) ==> forall i :: 0 <= i < |p.alerts| ==>
      Blocks(fns, p, platform)[i] == Block(fns, p, p.alerts[i], platform)
    ensures !Formatted(platform) ==> Blocks(fns, p, platform) == []
  {
    if Formatted(platform) {
      FlatMapSingletons(AlertBlocks(fns, p, platform), a => Block(fns, p, a, platform), p.alerts);
    } else {
      FlatMapNothing(AlertBlocks(fns, p, platform), p.alerts);
    }
  }

  /** The fallback message for a resolved payload that produced no block. */
  function ResolvedMessage(fns: TextFns, p: Payload, platform: string): string
  {
    var title := "[" + fns.upper(GetOr(p.status, "resolved")) + "] "
      + Lookup(p.commonLabels, "alertname", "Alert") + " Resolved";
    var body := "告警 **" + Lookup(p.commonLabels, "alertname", "N/A") + "** 已恢复.\n实例: "
      + Lookup(p.commonLabels, "instance", "N/A");
    if platform == "dingtalk" then "#### " + title + "\n\n" + body else body
  }

  /** The message `format_alertmanager_payload` returns. */
  function FullMessage(fns: TextFns, p: Payload, platform: string): (m: string)
    ensures p.status == Some("resolved") ==> m != ""
    ensures m != ResolvedMessage(fns, p, platform) ==> m == Join(BlockSeparator, Blocks(fns, p, platform))
  {
    var joined := Join(BlockSeparator, Blocks(fns, p, platform));
    if joined == "" && p.status == Some("resolved") then ResolvedMessage(fns, p, platform) else joined
  }

  /**
   * The message is empty exactly when no alert was formatted and the payload
   * is not resolved; with blocks it is their join, and a resolved payload
   * without blocks gets the fallback.
   */
  lemma FullMessageCases(fns: TextFns, p: Payload, platform: string)
    ensures FullMessage(fns, p, platform) == "" <==>
      (!Formatted(platform) || p.alerts == []) && p.status != Some("resolved")
    ensures Formatted(platform) && p.alerts != [] ==>
      FullMessage(fns, p, platform) == Join(BlockSeparator, Blocks(fns, p, platform))
    ensures (!Formatted(platform) || p.alerts == []) && p.status == Some("resolved") ==>
      FullMessage(fns, p, platform) == ResolvedMessage(fns, p, platform)
  {
    BlocksPerAlert(fns, p, platform);
    var blocks := Blocks(fns, p, platform);
    forall i | 0 <= i < |blocks|
      ensures blocks[i] != ""
    {
      RenderStartsWithHeader(platform, AlertFields(fns, p, p.alerts[i]));
    }
    JoinEmpty(BlockSeparator, blocks);
  }

  /** With at least one alert on a chat platform, the message opens with the first alert's header. */
  lemma MessageOpensWithFirstAlert(fns: TextFns, p: Payload, platform: string)
    requires Formatted(platform) && p.alerts != []
    ensures var m, h := FullMessage(fns, p, platform), BlockHeader(fns, p.alerts[0], platform);
      |h| <= |m| && m[..|h|] == h
  {
    FullMessageCases(fns, p, platform);
    BlocksPerAlert(fns, p, platform);
    var blocks := Blocks(fns, p, platform);
    JoinStartsWithFirst(BlockSeparator, blocks);
    RenderStartsWithHeader(platform, AlertFields(fns, p, p.alerts[0]));
    var h := BlockHeader(fns, p.alerts[0], platform);
    assert blocks[0][..|h|] == h;
  }

  /** Only the DingTalk fallback carries a "#### " title line. */
  lemma ResolvedHeading(fns: TextFns, p: Payload, platform: string)
    ensures platform == "dingtalk" ==> ResolvedMessage(fns, p, platform)[..5] == "#### "
    ensures platform != "dingtalk" ==> ResolvedMessage(fns, p, platform)[..3] == "告警 "
  {
  }

  /** `format_alertmanager_payload(payload, platform)`. */
  method FormatAlertmanagerPayload(fns: TextFns, payload: Payload, platform: string)
    returns (title: string, fullMessage: string)
    ensures title == TitlePrefix
    ensures fullMessage == FullMessage(fns, payload, platform)
  {
    var alertsMarkdown: seq<string> := [];
    title := "Prometheus告警";
    var alerts := payload.alerts;
    for i := 0 to |alerts|
      invariant alertsMarkdown == FlatMap(AlertBlocks(fns, payload, platform), alerts[..i])
    {
      FlatMapPrefix(AlertBlocks(fns, payload, platform), alerts, i);
      var fields := ReadAlertFields(fns, payload, alerts[i]);
      if Formatted(platform) {
        var md := RenderMarkdown(platform, fields);
        alertsMarkdown := alertsMarkdown + [md];
      }
    }
    assert alerts[..|alerts|] == alerts;
    fullMessage := Join("\n\n---\n\n", alertsMarkdown);
    if fullMessage == "" && payload.status == Some("resolved") {
      var statusTitle := "[" + fns.upper(GetOr(payload.status, "resolved")) + "] "
        + Lookup(payload.commonLabels, "alertname", "Alert") + " Resolved";
      fullMessage := "告警 **" + Lookup(payload.commonLabels, "alertname", "N/A") + "** 已恢复.\n实例: "
        + Lookup(payload.commonLabels, "instance", "N/A");
      if platform == "dingtalk" {
        fullMessage := "#### " + statusTitle + "\n\n" + fullMessage;
      }
    }
  }

  /** The first half of the loop body: what the block of one alert shows. */
  method ReadAlertFields(fns: TextFns, payload: Payload, alert: Alert) returns (fields: Fields)
    ensures fields == AlertFields(fns, payload, alert)
  {
    var status := fns.upper(GetOr(alert.status, "firing"));
    var summary := Lookup(alert.annotations, "summary", CommonSummary(payload));
    var description := Lookup(alert.annotations, "description", "无详细描述");
    var instance := Lookup(alert.labels, "instance", "N/A");
    var alertname := Lookup(alert.labels, "alertname", "N/A");
    var severity := fns.upper(Lookup(alert.labels, "severity", "N/A"));
    var startsAt := GetOr(alert.startsAt, "N/A");

    var grafanaLink := GetOr(payload.externalUrl, "");
    if "grafana_link" in alert.annotations {
      grafanaLink := alert.annotations["grafana_link"];
    } else if grafanaLink != "" && alertname != "N/A" && instance != "N/A" {
      grafanaLink := ExploreLink(fns, grafanaLink, alert);
    }

    var title := "[" + status + "] " + alertname + " - " + instance;
    fields := Fields(title, severity, summary, description, ShownTime(startsAt), grafanaLink);
  }

  /** The second half of the loop body: the markdown block of one alert on a chat platform. */
  method RenderMarkdown(platform: string, f: Fields) returns (md: string)
    requires Formatted(platform)
    ensures md == Render(platform, f)
  {
    var title := f.title;
    if platform == "dingtalk" {
      md := "#### " + title + "\n\n";
      md := md + ("- **级别**: " + f.severity + "\n");
      md := md + ("- **摘要**: " + f.summary + "\n");
      md := md + ("- **详情**: " + f.description + "\n");
      md := md + ("- **开始时间**: " + f.startTime + "\n");
      if f.grafanaLink != "" {
        md := md + ("- **[查看Grafana](" + f.grafanaLink + ")**\n");
      }
    } else if platform == "wechat" {
      md := "**" + title + "**\n";
      md := md + (">级别: <font color=\"warning\">" + f.severity + "</font>\n");
      md := md + (">摘要: " + f.summary + "\n");
      md := md + (">详情: " + f.description + "\n");
      md := md + (">开始时间: " + f.startTime + "\n");
      if f.grafanaLink != "" {
        md := md + (">[查看Grafana](" + f.grafanaLink + ")\n");
      }
    } else {
      md := "**" + title + "**\n";
      md := md + ("- **级别**: " + f.severity + "\n");
      md := md + ("- **摘要**: " + f.summary + "\n");
      md := md + ("- **详情**: " + f.description + "\n");
      md := md + ("- **开始时间**: " + f.startTime + "\n");
      if f.grafanaLink != "" {
        md := md + ("- **[查看Grafana](" + f.grafanaLink + ")**\n");
      }
    }
  }
}
