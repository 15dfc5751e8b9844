/** The receiver configuration route action: decodes the submitted platform list and
    credentials into the receiver record it upserts, under the route's fixed shop id.
 */
module ReceiverAction {
  import opened Wrappers
  import opened FormData
  import ReceiverForm

  const ShopId := "12345678"

  /** The upserted record; a credential key that was not submitted reads as undefined. */
  datatype ReceiverUpdate = ReceiverUpdate(
    shopId: string,
    isTelegramEnabled: bool,
    telegramBotToken: Option<FormValue>,
    telegramReceiverChatIds: Option<FormValue>)

  /** `JSON.parse(data.selectedPlatforms)` throws, or yields no list to search. */
  datatype DecodeError = MalformedPlatforms

  function Lookup(data: map<string, FormValue>, key: string): Option<FormValue> {
    if key in data then Some(data[key]) else None
  }

  /** `action`: fails iff the platform list is missing or not a list; otherwise Telegram is
      enabled iff the list names it, and both credentials pass through unchanged. */
  function DecodeReceiver(entries: Entries): (r: Result<ReceiverUpdate, DecodeError>)
    ensures var data := FromEntries(entries);
            r.Failure? <==> !("selectedPlatforms" in data && data["selectedPlatforms"].Json?)
    ensures var data := FromEntries(entries);
            r.Success? ==>
              && r.value.shopId == ShopId
              && r.value.isTelegramEnabled == (ReceiverForm.Telegram in data["selectedPlatforms"].list)
              && r.value.telegramBotToken == Lookup(data, "telegramBotToken")
              && r.value.telegramReceiverChatIds == Lookup(data, "telegramReceiverChatIds")
  {
    var data := FromEntries(entries);
    if "selectedPlatforms" in data && data["selectedPlatforms"].Json? then
      var selectedPlatforms := data["selectedPlatforms"].list;
      Success(ReceiverUpdate(
        ShopId,
        ReceiverForm.Telegram in selectedPlatforms,
        Lookup(data, "telegramBotToken"),
        Lookup(data, "telegramReceiverChatIds")))
    else Failure(MalformedPlatforms)
  }

  /** Decoding what the form submits gives the form's own state back: Telegram enabled iff
      it is selected, and the credentials as edited. */
  lemma SubmitRoundTrip(s: ReceiverForm.FormState)
    ensures DecodeReceiver(ReceiverForm.HandleSubmit(s))
         == Success(ReceiverUpdate(
              ShopId,
              ReceiverForm.Telegram in s.selectedPlatforms,
              Some(Text(s.config.telegramBotToken)),
              Some(Text(s.config.telegramReceiverChatIds))))
  {
    var form := ReceiverForm.HandleSubmit(s);
    LastEntryWins(form, 0);
    LastEntryWins(form, 1);
    LastEntryWins(form, 2);
  }

  /** Platform names other than Telegram do not affect whether Telegram is enabled: a later
      list that adds only such names decodes to the same record. */
  lemma OtherPlatformsIrrelevant(entries: Entries, list: seq<string>, others: seq<string>)
    requires ReceiverForm.Telegram !in others
    ensures DecodeReceiver(entries + [("selectedPlatforms", Json(list + others))])
         == DecodeReceiver(entries + [("selectedPlatforms", Json(list))])
  {
    var e1 := entries + [("selectedPlatforms", Json(list + others))];
    var e2 := entries + [("selectedPlatforms", Json(list))];
    LastEntryWins(e1, |entries|);
    LastEntryWins(e2, |entries|);
    assert FromEntries(e1)["selectedPlatforms" := Json(list)] == FromEntries(e2) by {
      assert e1[..|entries|] == entries == e2[..|entries|];
    }
  }

  /** A submission after Telegram was deselected disables Telegram and clears both
      credentials. */
  lemma DeselectedTelegramIsCleared(s: ReceiverForm.FormState, selected: seq<string>)
    requires ReceiverForm.Telegram !in selected
    ensures DecodeReceiver(ReceiverForm.HandleSubmit(ReceiverForm.HandlePlatformChange(s, selected)))
         == Success(ReceiverUpdate(ShopId, false, Some(Text("")), Some(Text(""))))
  {
    SubmitRoundTrip(ReceiverForm.HandlePlatformChange(s, selected));
  }

  /** Opening the form on a stored record and submitting it unchanged writes the stored
      credentials back, with a missing one written as "". */
  lemma ReloadSubmitKeepsCredentials(init: ReceiverForm.InitialConfiguration)
    ensures var r := DecodeReceiver(ReceiverForm.HandleSubmit(ReceiverForm.InitialState(Some(init))));
            && r.Success?
            && r.value.telegramBotToken == Some(Text(init.telegramBotToken.GetOr("")))
            && r.value.telegramReceiverChatIds == Some(Text(init.telegramReceiverChatIds.GetOr("")))
  {
    SubmitRoundTrip(ReceiverForm.InitialState(Some(init)));
  }
}
