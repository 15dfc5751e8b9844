/** The configuration gate (`AlertConfigurationService`): whether an alert type is enabled
    for a shop, and the shop's Telegram credentials. Both records are passed in as loaded;
    None stands for a shop without a record.
 */
module Gate {
  import opened Wrappers
  import opened Strings
  import opened Records

  /** The fixed alert-type to configuration-field map. */
  const ConfigMap: map<string, Field> := map[
    "PRODUCT_CREATED" := ProductCreate,
    "PRODUCT_UPDATED" := ProductUpdate,
    "PRODUCT_DELETED" := ProductDelete,
    "SIGN_IN" := Signin,
    "SIGN_UP" := Signup,
    "CHECK_OUT" := Checkout,
    "SYSTEM_ISSUE" := SystemIssue]

  /** `isAlertEnabled(shopId, alertType)`: fail-closed. It holds exactly when the shop has a
      record, the type is one of the mapped tags, and the mapped field is stored as true. */
  function IsAlertEnabled(config: Option<AlertConfig>, alertType: string): (r: bool)
    ensures config.None? ==> !r
    ensures alertType !in ConfigMap ==> !r
    ensures r <==> config.Some? && alertType in ConfigMap
                   && ConfigMap[alertType] in config.value.flags && config.value.flags[ConfigMap[alertType]]
  {
    match config
    case None => false
    case Some(c) => alertType in ConfigMap && FlagOr(c.flags, ConfigMap[alertType], false)
  }

  /** Each mapped tag answers with its own field, e.g. SIGN_UP with the `signup` column. */
  lemma MappedTagsReadTheirField(c: AlertConfig)
    ensures IsAlertEnabled(Some(c), "PRODUCT_CREATED") == FlagOr(c.flags, ProductCreate, false)
    ensures IsAlertEnabled(Some(c), "PRODUCT_UPDATED") == FlagOr(c.flags, ProductUpdate, false)
    ensures IsAlertEnabled(Some(c), "PRODUCT_DELETED") == FlagOr(c.flags, ProductDelete, false)
    ensures IsAlertEnabled(Some(c), "SIGN_IN") == FlagOr(c.flags, Signin, false)
    ensures IsAlertEnabled(Some(c), "SIGN_UP") == FlagOr(c.flags, Signup, false)
    ensures IsAlertEnabled(Some(c), "CHECK_OUT") == FlagOr(c.flags, Checkout, false)
    ensures IsAlertEnabled(Some(c), "SYSTEM_ISSUE") == FlagOr(c.flags, SystemIssue, false)
  {
  }

  /** The tags of the imported alert-type list, except SYSTEM_ISSUE, are not keys of the
      map, so they are disabled whatever the record says. */
  lemma ImportedTagsAreDisabled(config: Option<AlertConfig>)
    ensures !IsAlertEnabled(config, "PRODUCTS_CREATE")
    ensures !IsAlertEnabled(config, "PRODUCTS_UPDATE")
    ensures !IsAlertEnabled(config, "PRODUCTS_DELETE")
    ensures !IsAlertEnabled(config, "ORDERS_PAID")
    ensures !IsAlertEnabled(config, "CUSTOMERS_CREATE")
  {
  }

  datatype TelegramConfig = TelegramConfig(botToken: Option<string>, chatIds: seq<string>)

  /** `telegramReceiverChatIds?.split(",") || []`: no trimming. Joining the ids with commas
      gives the stored string back, there is one id more than commas, a missing string gives
      no ids and the empty string gives one empty id. */
  function ChatIds(stored: Option<string>): (ids: seq<string>)
    ensures stored.None? ==> ids == []
    ensures stored.Some? ==> |ids| == Count(stored.value, ',') + 1 && Join(ids, ',') == stored.value
    ensures stored == Some("") ==> ids == [""]
    ensures forall i :: 0 <= i < |ids| ==> ',' !in ids[i]
  {
    match stored
    case None => []
    case Some(s) => Split(s, ',')
  }

  /** Ids keep the spaces around them. */
  lemma ChatIdsAreNotTrimmed()
    ensures ChatIds(Some("111, 222")) == ["111", " 222"]
  {
    SplitJoin(["111", " 222"], ',');
    assert Join(["111", " 222"], ',') == "111, 222";
  }

  /** `getTelegramConfig(shopId)`: None unless the shop has a receiver record whose
      `receiverPlatform` is truthy; the bot token is passed through unchecked. */
  function GetTelegramConfig(receiver: Option<ReceiverConfig>): (r: Option<TelegramConfig>)
    ensures r.Some? <==> receiver.Some? && receiver.value.receiverPlatform.Truthy()
    ensures r.Some? ==> r.value.botToken == receiver.value.telegramBotToken
    ensures r.Some? ==> r.value.chatIds == ChatIds(receiver.value.telegramReceiverChatIds)
  {
    if receiver.None? || !receiver.value.receiverPlatform.Truthy() then None
    else Some(TelegramConfig(receiver.value.telegramBotToken, ChatIds(receiver.value.telegramReceiverChatIds)))
  }

  /** `receiverPlatform(shopId)`: `!!receiverConfig?.receiverPlatform`. */
  function ReceiverPlatform(receiver: Option<ReceiverConfig>): bool {
    receiver.Some? && receiver.value.receiverPlatform.Truthy()
  }

  lemma ReceiverPlatformIffTelegramConfig(receiver: Option<ReceiverConfig>)
    ensures ReceiverPlatform(receiver) <==> GetTelegramConfig(receiver).Some?
  {
  }
}
