/** The two per-shop settings records, as the configuration gate, the forms and the route
    actions see them. The database layer that loads and stores them is not modelled. */
module Records {
  import opened Wrappers

  /** The boolean columns of an alert configuration record that the code reads or writes,
      by their camelCase names (`productCreate`, ..., `systemIssue`), plus the legacy
      `signup` and `signin` columns. */
  datatype Field =
    | ProductCreate | ProductUpdate | ProductDelete
    | CustomersCreate | CustomersUpdate | CustomersDelete | CustomersRedact
    | Checkout | OrdersUpdated | OrdersCancelled | OrdersFulfilled
    | CheckoutsCreate | CheckoutsUpdate
    | InventoryUpdate
    | ThemesCreate | ThemesUpdate | ThemesDelete | ThemesPublish
    | ShopUpdate
    | SystemIssue
    | Signup | Signin

  /** A stored configuration as a JavaScript object: a column that is null or undefined
      has no key. */
  type Flags = map<Field, bool>

  /** `record.field ?? fallback` */
  function FlagOr(flags: Flags, field: Field, fallback: bool): bool {
    if field in flags then flags[field] else fallback
  }

  datatype AlertConfig = AlertConfig(shopId: string, flags: Flags)

  /** The stored `receiverPlatform` column. Its database type is not visible: the receiver
      form treats it as a list of platform names, an older interface as a boolean. */
  datatype PlatformValue = Missing | Flag(b: bool) | Names(names: seq<string>) {

    /** JavaScript truthiness: every array is truthy, even an empty one. */
    predicate Truthy() {
      match this
      case Missing => false
      case Flag(b) => b
      case Names(_) => true
    }
  }

  datatype ReceiverConfig = ReceiverConfig(
    shopId: string,
    receiverPlatform: PlatformValue,
    telegramBotToken: Option<string>,
    telegramReceiverChatIds: Option<string>)
}
