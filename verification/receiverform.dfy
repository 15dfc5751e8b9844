/** The receiver form (`AlertMessageReceiver`): the selected platforms and the Telegram
    credentials being edited, and the form fields the component submits.
 */
module ReceiverForm {
  import opened Wrappers
  import opened FormData

  const Telegram := "telegram"

  /** The credential fields of the form, in the order the component declares them. */
  datatype Credentials = Credentials(telegramBotToken: string, telegramReceiverChatIds: string)

  datatype CredentialField = BotToken | ChatIds

  datatype FormState = FormState(selectedPlatforms: seq<string>, config: Credentials)

  /** The stored receiver configuration the component is opened with; None for a null
      field. */
  datatype InitialConfiguration = InitialConfiguration(
    receiverPlatform: Option<seq<string>>,
    telegramBotToken: Option<string>,
    telegramReceiverChatIds: Option<string>)

  /** `value || ""`: an absent or empty string gives "", any other string itself. */
  function OrEmpty(v: Option<string>): (r: string)
    ensures v.None? ==> r == ""
    ensures v.Some? ==> r == v.value
  {
    if v.Some? && v.value != "" then v.value else ""
  }

  /** The initial state: the stored platform list (an array is truthy even when empty),
      else no platform; each credential as stored, else "". */
  function InitialState(init: Option<InitialConfiguration>): (s: FormState)
    ensures init.None? ==> s == FormState([], Credentials("", ""))
    ensures init.Some? && init.value.receiverPlatform.None? ==> s.selectedPlatforms == []
    ensures init.Some? && init.value.receiverPlatform.Some? ==>
              s.selectedPlatforms == init.value.receiverPlatform.value
    ensures init.Some? ==>
              && s.config.telegramBotToken == init.value.telegramBotToken.GetOr("")
              && s.config.telegramReceiverChatIds == init.value.telegramReceiverChatIds.GetOr("")
  {
    match init
    case None => FormState([], Credentials("", ""))
    case Some(c) =>
      var platforms := if c.receiverPlatform.Some? then c.receiverPlatform.value else [];
      FormState(platforms, Credentials(OrEmpty(c.telegramBotToken), OrEmpty(c.telegramReceiverChatIds)))
  }

  /** `handlePlatformChange(selected)`: the new selection replaces the old one; dropping
      Telegram clears both credentials, keeping it leaves them as they were. */
  function HandlePlatformChange(s: FormState, selected: seq<string>): (t: FormState)
    ensures t.selectedPlatforms == selected
    ensures Telegram !in selected ==> t.config == Credentials("", "")
    ensures Telegram in selected ==> t.config == s.config
  {
    if Telegram !in selected then FormState(selected, Credentials("", ""))
    else FormState(selected, s.config)
  }

  function Get(c: Credentials, field: CredentialField): string {
    match field
    case BotToken => c.telegramBotToken
    case ChatIds => c.telegramReceiverChatIds
  }

  /** `handleConfigChange(field, value)`: that field takes the value; the other field and
      the platform selection are unchanged. */
  function HandleConfigChange(s: FormState, field: CredentialField, value: string): (t: FormState)
    ensures t.selectedPlatforms == s.selectedPlatforms
    ensures Get(t.config, field) == value
    ensures forall g :: g != field ==> Get(t.config, g) == Get(s.config, g)
  {
    match field
    case BotToken => s.(config := s.config.(telegramBotToken := value))
    case ChatIds => s.(config := s.config.(telegramReceiverChatIds := value))
  }

  /** Changing one field twice keeps only the second value, and changes to the two
      different fields commute. */
  lemma ConfigChangesCompose(s: FormState, f: CredentialField, g: CredentialField, v: string, w: string)
    ensures HandleConfigChange(HandleConfigChange(s, f, v), f, w) == HandleConfigChange(s, f, w)
    ensures f != g ==>
              HandleConfigChange(HandleConfigChange(s, f, v), g, w)
              == HandleConfigChange(HandleConfigChange(s, g, w), f, v)
  {
  }

  /** The credentials as `Object.entries(config)` lists them. */
  function ConfigEntries(c: Credentials): seq<(string, string)> {
    [("telegramBotToken", c.telegramBotToken), ("telegramReceiverChatIds", c.telegramReceiverChatIds)]
  }

  /** `handleSubmit`: the platform list first, then each credential under its own name with
      `value || ""` applied, which leaves a string unchanged. */
  function HandleSubmit(s: FormState): (form: Entries)
    ensures |form| == 3
    ensures form[0] == ("selectedPlatforms", Json(s.selectedPlatforms))
    ensures form[1] == ("telegramBotToken", Text(s.config.telegramBotToken))
    ensures form[2] == ("telegramReceiverChatIds", Text(s.config.telegramReceiverChatIds))
  {
    var creds := ConfigEntries(s.config);
    [("selectedPlatforms", Json(s.selectedPlatforms))]
      + seq(|creds|, i requires 0 <= i < |creds| => (creds[i].0, Text(OrEmpty(Some(creds[i].1)))))
  }
}
