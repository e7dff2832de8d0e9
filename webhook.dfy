/**
 * The `/webhook/<platform>` endpoint of the notification receiver: it formats
 * the payload for the platform, picks the chat backend and its configured
 * webhook URL, and answers with an HTTP status code. The outcome of the
 * network send is an input.
 */
module Webhook {
  import opened Values
  import opened Text
  import opened AlertFormat

  /**
   * The webhook URLs, each taken from the configuration file or else from the
   * environment; `None` when neither sets it.
   */
  datatype Webhooks = Webhooks(dingtalk: Option<string>, wechat: Option<string>, feishu: Option<string>)

  /** The send the endpoint makes: backend, webhook URL and what is sent. */
  datatype Send =
    | DingTalkSend(url: string, title: string, markdown: string)
    | WeChatSend(url: string, markdown: string)
    | FeishuSend(url: string, title: string, text: string)

  /** The `(success, message)` pair a send function returns. */
  datatype SendResult = SendResult(success: bool, message: string)

  /** The JSON answer and its HTTP status code. */
  datatype Reply = Reply(code: int, status: string, message: string)

  /** What one request leads to: the answer, and the send made on the way, if any. */
  datatype Outcome = Outcome(reply: Reply, sent: Option<Send>)

  /** What the DingTalk title of a `default` or `zabbix` request starts with. */
  const ZabbixPrefix := "Zabbix告警: "

  /** The platform names the endpoint serves; `default` and `zabbix` go to DingTalk. */
  predicate Supported(platform: string)
  {
    platform == "dingtalk" || platform == "wechat" || platform == "feishu"
    || platform == "default" || platform == "zabbix"
  }

  /** The URL of the backend a platform name goes to, if that backend is configured. */
  function BackendUrl(platform: string, hooks: Webhooks): Option<string>
  {
    var url :=
      if platform == "wechat" then hooks.wechat
      else if platform == "feishu" then hooks.feishu
      else hooks.dingtalk;
    if Supported(platform) && Truthy(url) then url else None
  }

  /** The send made for a supported platform whose backend is configured. */
  function SendFor(platform: string, url: string, title: string, message: string): Send
  {
    if platform == "dingtalk" then DingTalkSend(url, title, message)
    else if platform == "wechat" then WeChatSend(url, message)
    else if platform == "feishu" then FeishuSend(url, title, message)
    else DingTalkSend(url, ZabbixPrefix + title, message)
  }

  /** The answer to a request whose payload was formatted into `message` for platform `lower`. */
  function Respond(lower: string, message: string, hooks: Webhooks, result: SendResult): (o: Outcome)
    ensures o.reply.code in {200, 400, 500}
    ensures o.reply.code == 200 <==> o.reply.status == "success"
    ensures o.sent.Some? <==> message != "" && Supported(lower) && BackendUrl(lower, hooks).Some?
  {
    if message == "" then Outcome(Reply(200, "success", "No alerts to send"), None)
    else if !Supported(lower) then Outcome(Reply(400, "error", "Unsupported platform"), None)
    else
      match BackendUrl(lower, hooks)
      case None => Outcome(Reply(500, "error", "Unknown platform or not configured"), None)
      case Some(url) =>
        var reply := if result.success then Reply(200, "success", result.message)
                     else Reply(500, "error", result.message);
        Outcome(reply, Some(SendFor(lower, url, TitlePrefix, message)))
  }

  /**
   * `webhook_receiver(platform)` on the parsed request body `payload`
   * (`None` when the body is not a JSON object). `result` is what the send
   * function returns, `failure` the text of the error raised on a missing body.
   * The payload is formatted for the platform name as given, lower-cased.
   */
  function Receive(fns: TextFns, platform: string, payload: Option<Payload>, hooks: Webhooks,
                   result: SendResult, failure: string): (o: Outcome)
    ensures o.reply.code in {200, 400, 500}
    ensures o.reply.code == 200 <==> o.reply.status == "success"
    ensures payload.None? ==> o.sent.None? && o.reply.code == 500
  {
    if payload.None? then Outcome(Reply(500, "error", failure), None)
    else
      var lower := fns.lower(platform);
      Respond(lower, FullMessage(fns, payload.value, lower), hooks, result)
  }

  /** The formatting the DingTalk backend expects, for the names that are routed to it. */
  function FormatPlatform(lower: string): string
  {
    if lower == "default" || lower == "zabbix" then "dingtalk" else lower
  }

  /** `webhook_receiver` with `default` and `zabbix` payloads formatted for DingTalk, where they are sent. */
  function ReceiveIntended(fns: TextFns, platform: string, payload: Option<Payload>, hooks: Webhooks,
                           result: SendResult, failure: string): (o: Outcome)
    ensures o.reply.code in {200, 400, 500}
    ensures o.reply.code == 200 <==> o.reply.status == "success"
    ensures payload.None? ==> o.sent.None? && o.reply.code == 500
  {
    if payload.None? then Outcome(Reply(500, "error", failure), None)
    else
      var lower := fns.lower(platform);
      Respond(lower, FullMessage(fns, payload.value, FormatPlatform(lower)), hooks, result)
  }

  /**
   * The status codes: 200 for an empty message, whatever the platform, or for
   * a send that succeeded; 400 for an unknown platform with something to
   * send; 500 otherwise. A send happens exactly when there is a message, the
   * platform is known and its backend is configured.
   */
  lemma ReceiveStatus(fns: TextFns, platform: string, p: Payload, hooks: Webhooks, result: SendResult, failure: string)
    ensures var o, lower := Receive(fns, platform, Some(p), hooks, result, failure), fns.lower(platform);
      var message := FullMessage(fns, p, lower);
      && (o.reply.code == 200 <==> message == "" || (Supported(lower) && BackendUrl(lower, hooks).Some? && result.success))
      && (o.reply.code == 400 <==> message != "" && !Supported(lower))
      && (o.reply.code == 500 <==> message != "" && Supported(lower) && (BackendUrl(lower, hooks).None? || !result.success))
      && (o.sent.Some? <==> message != "" && Supported(lower) && BackendUrl(lower, hooks).Some?)
      && (o.reply.code == 200 <==> o.reply.status == "success")
  {
  }

  /** A missing body is answered with 500 and nothing is sent. */
  lemma MissingBody(fns: TextFns, platform: string, hooks: Webhooks, result: SendResult, failure: string)
    ensures Receive(fns, platform, None, hooks, result, failure) == Outcome(Reply(500, "error", failure), None)
  {
  }

  /**
   * The formatter gives `default` and `zabbix` no alert blocks: such a request
   * is answered with 200 and sends nothing unless the payload is resolved,
   * and then DingTalk gets the plain resolved message under a Zabbix title.
   */
  lemma ZabbixSendsOnlyResolved(fns: TextFns, platform: string, p: Payload, hooks: Webhooks, result: SendResult, failure: string)
    requires fns.lower(platform) == "zabbix" || fns.lower(platform) == "default"
    ensures var o := Receive(fns, platform, Some(p), hooks, result, failure);
      && (p.status != Some("resolved") ==> o == Outcome(Reply(200, "success", "No alerts to send"), None))
      && (p.status == Some("resolved") && Truthy(hooks.dingtalk) ==>
            o.sent == Some(DingTalkSend(hooks.dingtalk.value, ZabbixPrefix + TitlePrefix,
                                        ResolvedMessage(fns, p, fns.lower(platform)))))
  {
    FullMessageCases(fns, p, fns.lower(platform));
    var message := ResolvedMessage(fns, p, fns.lower(platform));
    if p.status == Some("resolved") {
      assert message[..3] == "告警 ";
    }
  }

  /** On the three chat platforms with alerts, the backend receives one block per alert. */
  lemma ChatPlatformSendsBlocks(fns: TextFns, platform: string, p: Payload, hooks: Webhooks, result: SendResult, failure: string)
    requires Formatted(fns.lower(platform)) && p.alerts != []
    requires BackendUrl(fns.lower(platform), hooks).Some?
    ensures var o := Receive(fns, platform, Some(p), hooks, result, failure);
      && o.sent.Some?
      && o.sent.value == SendFor(fns.lower(platform), BackendUrl(fns.lower(platform), hooks).value, TitlePrefix,
                                 Join(BlockSeparator, Blocks(fns, p, fns.lower(platform))))
      && o.reply.code == (if result.success then 200 else 500)
  {
    FullMessageCases(fns, p, fns.lower(platform));
  }

  /**
   * With the DingTalk formatting, a `default` or `zabbix` request with alerts
   * reaches DingTalk with one block per alert under a Zabbix title.
   */
  lemma ZabbixIntendedSendsBlocks(fns: TextFns, platform: string, p: Payload, hooks: Webhooks, result: SendResult, failure: string)
    requires fns.lower(platform) == "zabbix" || fns.lower(platform) == "default"
    requires p.alerts != [] && Truthy(hooks.dingtalk)
    ensures var o := ReceiveIntended(fns, platform, Some(p), hooks, result, failure);
      && o.sent == Some(DingTalkSend(hooks.dingtalk.value, ZabbixPrefix + TitlePrefix,
                                     Join(BlockSeparator, Blocks(fns, p, "dingtalk"))))
      && o.reply.code == (if result.success then 200 else 500)
  {
    var lower := fns.lower(platform);
    FullMessageCases(fns, p, FormatPlatform(lower));
    var message := FullMessage(fns, p, FormatPlatform(lower));
    assert message != "" && message == Join(BlockSeparator, Blocks(fns, p, "dingtalk"));
    assert BackendUrl(lower, hooks) == hooks.dingtalk;
  }

  /** Apart from `default` and `zabbix`, the corrected endpoint answers like the one as written. */
  lemma IntendedAgreesElsewhere(fns: TextFns, platform: string, payload: Option<Payload>, hooks: Webhooks, result: SendResult, failure: string)
    requires fns.lower(platform) != "zabbix" && fns.lower(platform) != "default"
    ensures ReceiveIntended(fns, platform, payload, hooks, result, failure) == Receive(fns, platform, payload, hooks, result, failure)
  {
  }
}
