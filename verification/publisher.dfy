/** The Telegram publisher (`TelegramPublisherService`): finalises the message text, builds
    one `sendMessage` request per chat, and folds the per-chat outcomes into one result.
    The HTTP exchange itself is an input: one delivery outcome per request.
 */
module Publisher {
  import opened Wrappers
  import opened Strings
  import AlertTemplate

  /** The prefix literal the publisher compares against: the bell's UTF-8 bytes read as
      Windows-1252 text, which is not the bell the template engine emits. */
  const TemplateMarker := "\U{F0}\U{178}\U{201D}\U{201D}"

  /** `formatTelegramMessage(message, metadata)`: both branches append the metadata block
      when there is metadata and otherwise return the message unchanged; no envelope is
      added in either. */
  function FormatTelegramMessage(message: string, metadata: AlertTemplate.Metadata): (r: string)
    ensures r == message + AlertTemplate.FormatMetadata(metadata)
    ensures |metadata| == 0 ==> r == message
    ensures |metadata| > 0 ==> |message| < |r| && StartsWith(r, message)
  {
    if StartsWith(message, TemplateMarker) then
      if |metadata| > 0 then message + AlertTemplate.FormatMetadata(metadata) else message
    else
      var formatted := message;
      if |metadata| > 0 then formatted + AlertTemplate.FormatMetadata(metadata) else formatted
  }

  /** The publisher's prefix check never matches a message the template engine rendered. */
  lemma RenderedMessagesMissMarker(alertType: string, data: AlertTemplate.TemplateData, timestamp: string)
    ensures !StartsWith(AlertTemplate.Render(alertType, data, timestamp), TemplateMarker)
  {
    var head := AlertTemplate.TitleOpen + AlertTemplate.Title(AlertTemplate.Classify(alertType)) + AlertTemplate.TitleClose;
    assert head[0] == '\U{1F514}';
    PrefixesDifferAtFirst(AlertTemplate.Render(alertType, data, timestamp), head, TemplateMarker);
  }

  /** A string that starts with one prefix cannot start with another whose first character
      differs. */
  lemma PrefixesDifferAtFirst(s: string, p: string, q: string)
    requires StartsWith(s, p) && |p| > 0 && |q| > 0 && p[0] != q[0]
    ensures !StartsWith(s, q)
  {
    assert s[0] == s[..|p|][0];
  }

  datatype TelegramMessage = TelegramMessage(message: string, metadata: Option<AlertTemplate.Metadata>)

  datatype Credentials = Credentials(botToken: string, chatIds: seq<string>)

  /** The text every chat receives: `message.metadata || {}` formatted onto the message. */
  function OutgoingText(m: TelegramMessage): string {
    FormatTelegramMessage(m.message, m.metadata.GetOr([]))
  }

  /** One `fetch` of `sendMessage`: POST, JSON body `{chat_id, text, parse_mode: "HTML"}`. */
  datatype SendRequest = SendRequest(
    url: string, httpMethod: string, contentType: string,
    chatId: string, text: string, parseMode: string)

  const ApiPrefix := "https://api.telegram.org/bot"
  const ApiSuffix := "/sendMessage"

  function BuildRequest(text: string, chatId: string, botToken: string): (q: SendRequest)
    ensures BotTokenOf(q.url) == Some(botToken)
    ensures q.chatId == chatId && q.text == text
    ensures q.httpMethod == "POST" && q.contentType == "application/json" && q.parseMode == "HTML"
  {
    var url := ApiPrefix + botToken + ApiSuffix;
    assert url[..|ApiPrefix|] == ApiPrefix;
    assert url[|url| - |ApiSuffix|..] == ApiSuffix;
    assert url[|ApiPrefix|..|url| - |ApiSuffix|] == botToken;
    SendRequest(url, "POST", "application/json", chatId, text, "HTML")
  }

  /** Reads the bot token back out of a `sendMessage` URL. */
  function BotTokenOf(url: string): Option<string> {
    if |ApiPrefix| + |ApiSuffix| <= |url| && StartsWith(url, ApiPrefix) && EndsWith(url, ApiSuffix)
    then Some(url[|ApiPrefix|..|url| - |ApiSuffix|])
    else None
  }

  /** What the network gave back for one request: a response, or a rejected `fetch`. */
  datatype Delivery = Responded(ok: bool, status: int) | Unreachable(reason: string)

  datatype SendError = ApiError(status: int) | NetworkError(reason: string)

  /** `sendToTelegramChat`: a non-ok response is a failure carrying its status, a rejected
      fetch is a failure carrying its reason; nothing is retried. */
  function SendOutcome(d: Delivery): (o: Outcome<SendError>)
    ensures o.Pass? <==> d.Responded? && d.ok
    ensures d.Responded? && !d.ok ==> o == Fail(ApiError(d.status))
    ensures d.Unreachable? ==> o == Fail(NetworkError(d.reason))
  {
    match d
    case Responded(ok, status) => if ok then Pass else Fail(ApiError(status))
    case Unreachable(reason) => Fail(NetworkError(reason))
  }

  /** `publishToTelegram(message, credentials)`. Every chat id gets exactly one request,
      all carrying the same text, whatever the other chats' outcomes; `responses[i]` is the
      network's answer to request `i`. The call succeeds iff every send succeeds, and a
      failure is the failure of some chat. */
  method PublishToTelegram(m: TelegramMessage, creds: Credentials, responses: seq<Delivery>)
    returns (sent: seq<SendRequest>, result: Outcome<SendError>)
    requires |responses| == |creds.chatIds|
    ensures |sent| == |creds.chatIds|
    ensures forall i :: 0 <= i < |sent| ==> sent[i] == BuildRequest(OutgoingText(m), creds.chatIds[i], creds.botToken)
    ensures result.Pass? <==> forall i :: 0 <= i < |responses| ==> SendOutcome(responses[i]).Pass?
    ensures result.Fail? ==> exists i :: 0 <= i < |responses| && SendOutcome(responses[i]) == result
  {
    sent := FanOut(OutgoingText(m), creds.chatIds, creds.botToken);
    result := AwaitAll(responses);
  }

  /** Starts one send per chat id, in chat order, all with the same text. */
  method FanOut(text: string, chatIds: seq<string>, botToken: string) returns (sent: seq<SendRequest>)
    ensures |sent| == |chatIds|
    ensures forall i :: 0 <= i < |sent| ==> sent[i] == BuildRequest(text, chatIds[i], botToken)
  {
    sent := [];
    var i := 0;
    while i < |chatIds|
      invariant 0 <= i <= |chatIds|
      invariant |sent| == i
      invariant forall j :: 0 <= j < i ==> sent[j] == BuildRequest(text, chatIds[j], botToken)
    {
      sent := sent + [BuildRequest(text, chatIds[i], botToken)];
      i := i + 1;
    }
  }

  /** `Promise.all` over the sends: passes iff every send passes, otherwise fails with the
      failure of one of them. */
  method AwaitAll(responses: seq<Delivery>) returns (result: Outcome<SendError>)
    ensures result.Pass? <==> forall i :: 0 <= i < |responses| ==> SendOutcome(responses[i]).Pass?
    ensures result.Fail? ==> exists i :: 0 <= i < |responses| && SendOutcome(responses[i]) == result
  {
    result := Pass;
    var k := 0;
    while k < |responses|
      invariant 0 <= k <= |responses|
      invariant result.Pass? <==> forall j :: 0 <= j < k ==> SendOutcome(responses[j]).Pass?
      invariant result.Fail? ==> exists j :: 0 <= j < k && SendOutcome(responses[j]) == result
    {
      if result.Pass? {
        result := SendOutcome(responses[k]);
      }
      k := k + 1;
    }
  }
}
