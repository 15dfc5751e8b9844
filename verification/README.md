# Shopify alert notifier — the alert message pipeline in Dafny

This project models the alert message pipeline of a Shopify notification app, without its
I/O, and proves properties of that model. The pipeline has five parts:

- **Template engine** (`AlertTemplate`, in `template.dfy`). It renders an alert-type tag
  and the optional template fields into the fixed rich-text layout: a bell marker, the bold
  title, the details sentence and the italic time line. It also renders a metadata list as
  an "Additional Information" block.
- **Telegram publisher** (`Publisher`, in `publisher.dfy`). It finalises the message text
  and builds one `sendMessage` request per chat. It then folds the per-chat outcomes into
  one all-or-nothing result.
- **Configuration gate** (`Gate`, in `gate.dfy`). It answers whether an alert type is
  enabled for a shop, using a fail-closed lookup through a fixed tag-to-column map. It also
  reads the shop's Telegram credentials, splitting the chat-id string on commas without
  trimming.
- **Alert record store** (`AlertStore`, in `store.dfy`). It creates records, lists them,
  updates their status and resends them, over an in-memory table.
- **Configuration encode/decode**:
  - the alert configuration form (`ConfigForm`) and its route action (`ConfigAction`);
  - the receiver form (`ReceiverForm`) and its route action (`ReceiverAction`).

Shared pieces:

- `Wrappers` holds Option, Result and Outcome.
- `Strings` holds the JavaScript string operations the code uses. That includes `split`
  on one character, with `join` as its inverse.
- `FormData` holds submitted form fields and `Object.fromEntries`, where the last entry
  under a key wins.
- `Records` holds the stored per-shop settings records. A configuration record is a map
  from column to flag, and a null column has no key.

JavaScript truthiness is modelled explicitly:

- An optional template field counts only when it is present and non-empty.
- `x ?? fallback` reads a missing key as the fallback.
- An array is truthy even when it is empty.

The publisher's comment on its second branch (`app/services/publisher.server.ts:112`) says
a message without the template marker is formatted "with the default template". The code
of that branch, like the first, returns the message unchanged apart from the metadata
block. The model follows the code.

## Model

| member | source | states |
|---|---|---|
| AlertTemplate.Title | app/services/alert-template.server.ts:28-87 | each case has its fixed title, and no title contains `<`, so the title ends at the closing bold tag |
| AlertTemplate.Render | app/services/alert-template.server.ts:16-89 | the message starts with the bell, the bold title and a blank line, and ends with the italic time line. Its title reads back as the title of the tag's case whatever the data, so the title depends on the alert type alone |
| AlertTemplate.RenderLayout | app/services/alert-template.server.ts:24-26 | the details sentence reads back from between the title block and the time line, so together with Render's prefix and suffix the message is exactly title block, details, time line |
| AlertTemplate.UnknownTagIsGeneric | app/services/alert-template.server.ts:83-87 | rendering is total: a tag outside the seven cases gets the title "Alert Notification" and the generic "An alert has been triggered for your shop" sentence |
| AlertTemplate.BareSentences | app/services/alert-template.server.ts:29-87 | with every field absent each case renders its bare sentence, e.g. "A new product has been created." |
| AlertTemplate.DetailsReadOnlyUsedFields | app/services/alert-template.server.ts:28-87 | details agree whenever the data agree on the fields the case reads. Product id, order id and customer email never appear. Product deletion, checkout and the generic alert show only the shop name |
| AlertTemplate.EmptyFieldsAreAbsent | app/services/alert-template.server.ts:32-34 | an empty field renders exactly like an absent one, so an empty shop name contributes no text |
| AlertTemplate.ProductTitleShownIffPresent | app/services/alert-template.server.ts:29-43 | for product creation and update, the bold quoted product title follows the opening words iff the title is present and non-empty |
| AlertTemplate.SystemIssueErrorDetails | app/services/alert-template.server.ts:73-81 | a system issue appends `\n\n<b>Error details:</b>\n` + the error message iff an error message is present, and nothing otherwise |
| AlertTemplate.Lines | app/services/alert-template.server.ts:98-100 | the loop that appends one line per entry produces the first entry's line followed by the lines of the rest |
| AlertTemplate.FormatMetadata | app/services/alert-template.server.ts:92-103 | the block is "" exactly for empty metadata. Otherwise it is the header followed by one `\n<b>key:</b> value` line per entry, in entry order |
| AlertTemplate.LinesAppend | app/services/alert-template.server.ts:98-100 | the lines of two concatenated entry lists are the concatenation of their lines |
| Publisher.FormatTelegramMessage | app/services/publisher.server.ts:101-119 | both branches of the prefix check give message + metadata block. Empty metadata leaves the message unchanged. Any metadata makes the message a strict prefix of the result, so no envelope is added |
| Publisher.RenderedMessagesMissMarker | app/services/publisher.server.ts:106 | the prefix the publisher checks for never starts a message the template engine renders |
| Publisher.BuildRequest | app/services/publisher.server.ts:64-77 | a send is a POST of JSON `{chat_id, text, parse_mode: "HTML"}` to a URL from which the bot token reads back unchanged |
| Publisher.SendOutcome | app/services/publisher.server.ts:78-98 | a send succeeds iff the response is ok. A non-ok response fails with its status and a rejected fetch fails with its reason, with no retry |
| Publisher.FanOut | app/services/publisher.server.ts:35-43 | every chat id gets exactly one request, in chat order, all with the same text |
| Publisher.AwaitAll | app/services/publisher.server.ts:35-52 | the aggregate passes iff every send passes. Otherwise it fails with the failure of one of the sends |
| Publisher.PublishToTelegram | app/services/publisher.server.ts:20-53 | one request per chat id, each carrying the formatted message. The call succeeds iff every send succeeds, and an empty chat list means no request and success |
| Strings.Split | app/services/base.server.ts:84 | `split(",")` never returns an empty list, has one part more than separators, no part holds the separator, and joining the parts gives the input back |
| Strings.SplitJoin | app/services/base.server.ts:84 | splitting the join of separator-free parts gives the parts back |
| FormData.FromEntries | app/routes/app.configuration.tsx:19 | the object has a property exactly for each submitted key |
| FormData.LastEntryWins | app/routes/app.configuration.tsx:19 | the property under a key holds the value of the last entry submitted under it |
| FormData.LastIndexOf | app/routes/app.configuration.tsx:19 | every key that has a property was submitted, and has a last entry |
| FormData.LookupIsLastEntry | app/routes/app.configuration.tsx:19 | the property under a key holds a value iff the last entry submitted under that key carries it |
| FormData.AppendOtherKeys | app/routes/app.configuration.tsx:19 | entries appended under other keys neither add nor change the property under a key |
| Gate.IsAlertEnabled | app/services/base.server.ts:40-58 | fail-closed: enabled iff the shop has a record, the tag is a key of the map and the mapped column is stored as true. No record, or an unmapped tag, gives false |
| Gate.MappedTagsReadTheirField | app/services/base.server.ts:47-57 | each of the seven tags answers with its own column, e.g. SIGN_UP with `signup` and CHECK_OUT with `checkout`, and a missing column gives false |
| Gate.ImportedTagsAreDisabled | app/services/base.server.ts:42-57 | every tag of the alert-type list except SYSTEM_ISSUE, such as PRODUCTS_CREATE and ORDERS_PAID, is not a map key and is disabled whatever the record holds |
| Gate.ChatIds | app/services/base.server.ts:84 | the chat ids are the untrimmed comma split. Joining them gives the stored string back, there is one more id than commas, a missing string gives no ids and "" gives one empty id |
| Gate.ChatIdsAreNotTrimmed | app/services/base.server.ts:84 | "111, 222" gives the ids "111" and " 222" |
| Gate.GetTelegramConfig | app/services/base.server.ts:75-86 | credentials exist iff the shop has a receiver record with a truthy `receiverPlatform`. The bot token passes through unchecked and the ids are the comma split |
| Gate.ReceiverPlatformIffTelegramConfig | app/services/base.server.ts:69-86 | `receiverPlatform` is true iff Telegram credentials are returned |
| AlertStore.CreateAlert | app/services/all-alert-message.server.ts:14-27 | appends exactly one record with the given shop, type and message, status Success and a fresh id. Every other record stays as it was |
| AlertStore.UpdateAlertStatus | app/services/all-alert-message.server.ts:28-33 | fails with RecordNotFound iff no record has the id. Otherwise only that record's status changes, and the updated record is returned |
| AlertStore.UpdateIdempotent | app/services/all-alert-message.server.ts:28-33 | applying the same status update twice is the same as applying it once |
| AlertStore.ResendAlert | app/services/all-alert-message.server.ts:35-40 | the record's status becomes Success whatever it was. No record is created and nothing else, the message included, changes |
| AlertStore.ShopRows | app/services/all-alert-message.server.ts:9 | the shop filter keeps exactly the records of that shop, each exactly as often as stored, and no other record |
| AlertStore.SortNewestFirst | app/services/all-alert-message.server.ts:10 | the ordering is a permutation of its input with creation times never increasing |
| AlertStore.GetAlertMessages | app/services/all-alert-message.server.ts:7-12 | the listing is exactly the shop's records, each as often as stored, newest first |
| AlertStore.CreatedAlertIsListed | app/services/all-alert-message.server.ts:7-27 | a created alert is listed for its shop, and no other shop's listing changes |
| ConfigForm.OptionsAreTheOptionFields | app/components/configuration/AlertConfigForm.tsx:176-218 | the checkbox state has twenty distinct options: every configuration column except the legacy `signup` and `signin` |
| ConfigForm.OptionKeyRoundTrip | app/components/configuration/AlertConfigForm.tsx:178-217 | each option's snake_case key names that option and no other |
| ConfigForm.OptionKeysDistinct | app/components/configuration/AlertConfigForm.tsx:178-217 | distinct options have distinct keys |
| ConfigForm.InitialSelected | app/components/configuration/AlertConfigForm.tsx:176-218 | no configuration gives all twenty options false. Otherwise each option takes its stored column, a missing column gives false, and `customers_create`/`customers_update` fall back to the legacy `signup`/`signin` only when their own column is missing |
| ConfigForm.ExplicitColumnOverridesLegacy | app/components/configuration/AlertConfigForm.tsx:183-186 | a stored `customersCreate: false` wins over a legacy `signup: true` |
| ConfigForm.HandleChange | app/components/configuration/AlertConfigForm.tsx:222-227 | `handleChange(id)(b)` sets option `id` to `b` and leaves every other option unchanged |
| ConfigForm.SelectAll | app/components/configuration/AlertConfigForm.tsx:229-236 | the same options, all on, so `isAllSelected` holds and, with any option, `isNoneSelected` does not |
| ConfigForm.UnselectAll | app/components/configuration/AlertConfigForm.tsx:238-245 | the same options, all off, so `isNoneSelected` holds and, with any option, `isAllSelected` does not |
| ConfigForm.SaveForm | app/components/configuration/AlertConfigForm.tsx:247-254 | one field per option, named by the option's key, holding "true" or "false", and "true" exactly when the option is on |
| ConfigForm.SavedFields | app/components/configuration/AlertConfigForm.tsx:247-251 | in the submitted data each option's key holds that option's own flag as text |
| ConfigForm.UnsavedKey | app/components/configuration/AlertConfigForm.tsx:247-251 | a key that names no option, `signup` and `signin` included, is never submitted |
| ConfigForm.GroupOptions | app/components/configuration/AlertConfigForm.tsx:262-274 | categories come in order of first appearance, without repeats. Each group holds exactly the options of its category in list order, and every option lands in its category's group |
| ConfigAction.DecodeConfiguration | app/routes/app.configuration.tsx:17-34 | the record holds exactly the seven decoded columns, under the shop id "12345678" |
| ConfigAction.DecodedColumn | app/routes/app.configuration.tsx:21-30 | each decoded column is true iff the last field submitted under the key named after it is exactly the text "true". An absent key or any other value gives false |
| ConfigAction.DecodeSavedForm | app/routes/app.configuration.tsx:23-29 | decoding a saved form gives back the selected values of product create/update/delete, checkout and system issue, and false for `signup` and `signin` on every submission |
| ConfigAction.DecodeIgnoresOtherKeys | app/routes/app.configuration.tsx:21-30 | fields appended under keys that name none of the seven columns, such as `customers_create` or `themes_publish`, leave the decoded record unchanged |
| ConfigAction.SavedFormDisablesSignUpAndSignIn | app/routes/app.configuration.tsx:26-27 | after any form submission is decoded, the gate reports SIGN_UP and SIGN_IN alerts as disabled |
| ConfigAction.SaveReloadAsWritten | app/routes/app.configuration.tsx:21-30 | saving the form and reopening it on the decoded record keeps only the five persisted options. Every other option, the customer options included, comes back off |
| ConfigAction.SaveReloadLosesCustomerCreation | app/routes/app.configuration.tsx:21-30 | any selection with customer creation on, the "select all" one for instance, comes back from a save and reload with it off, so the reload differs from the selection |
| ConfigAction.DecodeAllOptions | app/services/configuration.server.ts:3-40 | the record has exactly the twenty option columns, under the shop id "12345678" |
| ConfigAction.DecodedOption | app/services/configuration.server.ts:3-40 | each option's column is true iff the last field submitted under the option's key is exactly the text "true" |
| ConfigAction.SaveReloadCorrected | app/services/configuration.server.ts:3-40 | with the twenty-column decoder, a save followed by a reload gives the selection back exactly |
| ReceiverForm.OrEmpty | app/components/AlertReceiverConfiguration/AlertMessageReceiver.tsx:72-74 | `value \|\| ""` gives the stored string, or "" when it is absent |
| ReceiverForm.InitialState | app/components/AlertReceiverConfiguration/AlertMessageReceiver.tsx:65-75 | the initial platforms are the stored list, or none. The initial credentials are the stored values, or "" |
| ReceiverForm.HandlePlatformChange | app/components/AlertReceiverConfiguration/AlertMessageReceiver.tsx:77-85 | the new selection replaces the old. Dropping "telegram" clears both credentials to "", and keeping it leaves them unchanged |
| ReceiverForm.HandleConfigChange | app/components/AlertReceiverConfiguration/AlertMessageReceiver.tsx:87-92 | exactly the named credential takes the value. The other credential and the platforms are unchanged |
| ReceiverForm.ConfigChangesCompose | app/components/AlertReceiverConfiguration/AlertMessageReceiver.tsx:87-92 | a second change of the same field overrides the first, and changes to different fields commute |
| ReceiverForm.HandleSubmit | app/components/AlertReceiverConfiguration/AlertMessageReceiver.tsx:94-102 | the submission is the platform list followed by the bot token and the chat-id string, each as text |
| ReceiverAction.DecodeReceiver | app/routes/app.alert-receiver-configuration.tsx:17-32 | fails iff the platform list is missing or not a list. Otherwise Telegram is enabled iff the list contains "telegram", both credentials pass through unchanged, and the shop id is "12345678" |
| ReceiverAction.SubmitRoundTrip | app/routes/app.alert-receiver-configuration.tsx:19-27 | decoding the form's submission gives the form's state back: Telegram enabled iff selected, and the credentials as edited |
| ReceiverAction.OtherPlatformsIrrelevant | app/routes/app.alert-receiver-configuration.tsx:25 | adding platform names other than "telegram" to the list does not change the decoded record |
| ReceiverAction.DeselectedTelegramIsCleared | app/routes/app.alert-receiver-configuration.tsx:21-27 | submitting after "telegram" was deselected disables Telegram and writes empty credentials |
| ReceiverAction.ReloadSubmitKeepsCredentials | app/routes/app.alert-receiver-configuration.tsx:21-27 | opening the form on a stored record and submitting it unchanged writes the stored credentials back, with a missing one written as "" |

## Left out

- Network I/O: the `fetch` to the Telegram API is not modelled. The network's answer to each request is an input, either a response (ok flag and status) or a rejection.
- Database calls: the Prisma `findUnique`, `create`, `update` and `upsert` calls are not modelled. Records are passed in and returned as values, and the route actions return the record they hand to the service.
- The route loaders and actions call `getConfiguration` and `upsertConfiguration` on the service classes themselves (`app/routes/app.configuration.tsx:13`, `:32`; `app/routes/app.alert-receiver-configuration.tsx:13`, `:30`). These are instance methods (`app/services/configuration.server.ts:49`, `:61`; `app/services/alert-receiver-configuration.server.ts:17`, `:23`), so as written each call throws a TypeError and nothing is stored or loaded. The model stops at the record handed to the service, as though the call worked.
- The upsert's `update: configData` keeps stored columns that the action omits. Reopening a form "on the decoded record" therefore models a freshly created row, whose omitted columns are null.
- Generated values: database-generated string ids are modelled as natural numbers from a counter in the store. The creation time is a parameter.
- The clock and locale: `toLocaleString()` is not modelled, and the render time is a string parameter.
- Logging, console output, authentication, webhook plumbing, loaders and all JSX rendering are not modelled.
- Concurrency: `Promise.all` is modelled as "every send is started, and the results are conjoined". The parallel fetch of the two records in `getShopConfiguration` is likewise replaced by passing both records in.
- Publisher.AwaitAll: says only that a failure is the failure of some chat. The rejection `Promise.all` reports is whichever settles first, which depends on timing.
- Publisher.SendOutcome: reports a non-ok response as its status error. In the source, an error body that is not JSON makes the send reject with the parse error instead.
- AlertTemplate.FormatMetadata: metadata values are already-rendered text, and entries come in the order given. The interpolation of non-string values, and the reordering `Object.entries` applies to integer-like keys, are not modelled.
- AlertStore.GetAlertMessages: states the newest-first order but not the order among records with equal creation times, which the database leaves open.
- ReceiverAction.DecodeReceiver: JSON text is modelled as the list it encodes, so `JSON.stringify` and `JSON.parse` round-trip by construction. A platform value that is not an encoded list is reported as MalformedPlatforms. In the source, non-JSON throws, a JSON string is searched as a substring, and other JSON values throw a TypeError.
- The stored `receiverPlatform` column's type is not part of this model; the database schema is not available. For the gate, `Records.PlatformValue` covers both readings the code makes, a boolean and a list of names. `ReceiverForm.InitialConfiguration` takes the component's declared type, a list of names or null, and does not model a stored boolean reaching the form. The receiver action writes `isTelegramEnabled`, while the gate reads `receiverPlatform`. No lemma connects the two.
- The gate reads the legacy `signup`/`signin` columns. Neither the configuration form nor the twenty-column record writes them, so the model never links a form submission to a SIGN_UP/SIGN_IN answer other than false.
- The component's `notificationOptions` list, with its captions and categories, is not part of this model. `ConfigForm.GroupOptions` is proved for any option list.
- ConfigForm.GroupOptions: the groups come in order of first appearance. `Object.entries` on the grouped object puts integer-like category names first; no category of the component is integer-like, and the model does not cover such names.
- There is no dispatch orchestrator in the code, so none is modelled: nothing renders, gates, publishes and records an alert in one flow, and there is no pending status.

## Findings

| source | as written | input that shows it | evidently intended | confidence | as-written member | corrected member |
|---|---|---|---|---|---|---|
| app/routes/app.configuration.tsx:21-30 | the action decodes the keys `product_create`, `product_update`, `product_delete`, `signup`, `signin`, `checkout` and `system_issue`. The form submits twenty option keys and never `signup` or `signin` | select every option, save, and reopen the form on the record the action hands to the service, stored as a new row (the service call as written throws, see Left out): `customers_create`, like fourteen other options, is off | every option's column is stored from its own key, the twenty-column record of `ConfigurationData`, so a save and reload gives the selection back | not executed; proved about the model | ConfigAction.SaveReloadAsWritten, ConfigAction.SaveReloadLosesCustomerCreation | ConfigAction.DecodeAllOptions, ConfigAction.SaveReloadCorrected |
