/** The alert template engine (`AlertTemplateService`): renders an alert-type tag and the
    optional template fields into the fixed rich-text layout, and renders metadata as an
    "Additional Information" block. The render time is a parameter instead of a clock read.
 */
module AlertTemplate {
  import opened Wrappers
  import opened Strings

  /** The optional template fields. A field counts only when it is present and non-empty,
      as JavaScript truthiness treats `""` like `undefined`. */
  datatype TemplateData = TemplateData(
    shopName: Option<string>,
    productTitle: Option<string>,
    productId: Option<string>,
    orderId: Option<string>,
    customerName: Option<string>,
    customerEmail: Option<string>,
    errorMessage: Option<string>)

  /** The default argument `data = {}`. */
  const NoData := TemplateData(None, None, None, None, None, None, None)

  predicate Present(f: Option<string>) {
    f.Some? && f.value != ""
  }

  /** `${field ? before + field + after : ""}` */
  function Optional(f: Option<string>, before: string, after: string): string {
    if Present(f) then before + f.value + after else ""
  }

  /** The cases of the `switch` on the alert type; `Other` is its `default`. */
  datatype Case = ProductsCreate | ProductsUpdate | ProductsDelete | SignUp | SignIn
                | CheckOut | SystemIssue | Other

  function Classify(alertType: string): Case {
    if alertType == "PRODUCTS_CREATE" then ProductsCreate
    else if alertType == "PRODUCTS_UPDATE" then ProductsUpdate
    else if alertType == "PRODUCTS_DELETE" then ProductsDelete
    else if alertType == "SIGN_UP" then SignUp
    else if alertType == "SIGN_IN" then SignIn
    else if alertType == "CHECK_OUT" then CheckOut
    else if alertType == "SYSTEM_ISSUE" then SystemIssue
    else Other
  }

  const Bell := "\U{1F514}"
  const TitleOpen := Bell + " <b>"
  const TitleClose := "</b>\n\n"
  const TimeOpen := "\n\n<i>Time: "
  const TimeClose := "</i>"

  /** `baseMessage(title, details)` */
  function BaseMessage(title: string, details: string, timestamp: string): string {
    TitleOpen + title + TitleClose + details + TimeOpen + timestamp + TimeClose
  }

  function Title(c: Case): (t: string)
    ensures '<' !in t
  {
    match c
    case ProductsCreate => "New Product Created"
    case ProductsUpdate => "Product Updated"
    case ProductsDelete => "Product Deleted"
    case SignUp => "New Customer Registration"
    case SignIn => "Customer Sign In"
    case CheckOut => "New Order Placed"
    case SystemIssue => "System Issue Detected"
    case Other => "Alert Notification"
  }

  const ErrorDetailsHeading := "\n\n<b>Error details:</b>\n"

  function Details(c: Case, d: TemplateData): string {
    match c
    case ProductsCreate =>
      "A new product" + Optional(d.productTitle, " <b>\"", "\"</b>") + " has been created"
      + Optional(d.shopName, " in shop \"", "\"") + "."
    case ProductsUpdate =>
      "A product" + Optional(d.productTitle, " <b>\"", "\"</b>") + " has been updated"
      + Optional(d.shopName, " in shop \"", "\"") + "."
    case ProductsDelete =>
      "A product has been deleted" + Optional(d.shopName, " from shop \"", "\"") + "."
    case SignUp =>
      "A new customer" + Optional(d.customerName, " <b>", "</b>") + " has registered"
      + Optional(d.shopName, " at \"", "\"") + "."
    case SignIn =>
      "Customer" + Optional(d.customerName, " <b>", "</b>") + " has signed in"
      + Optional(d.shopName, " to \"", "\"") + "."
    case CheckOut =>
      "A new order has been placed" + Optional(d.shopName, " at \"", "\"") + "."
    case SystemIssue =>
      "A system issue has been detected" + Optional(d.shopName, " for \"", "\"") + "."
      + Optional(d.errorMessage, ErrorDetailsHeading, "")
    case Other =>
      "An alert has been triggered for your shop" + Optional(d.shopName, " \"", "\"") + "."
  }

  /** Reads the title back out of a rendered message: the text after the bell marker up to
      the first `<`, or None when the message does not start with the marker. */
  function ParseTitle(message: string): Option<string> {
    if StartsWith(message, TitleOpen) then Some(TakeUntil(message[|TitleOpen|..], '<'))
    else None
  }

  /** The longest prefix of `s` without `c`. */
  function TakeUntil(s: string, c: char): (p: string)
    ensures StartsWith(s, p) && c !in p
  {
    if |s| == 0 || s[0] == c then "" else [s[0]] + TakeUntil(s[1..], c)
  }

  lemma {:induction false} TakeUntilPrefix(p: string, rest: string, c: char)
    requires c !in p && StartsWith(rest, [c])
    ensures TakeUntil(p + rest, c) == p
  {
    if |p| > 0 {
      assert (p + rest)[1..] == p[1..] + rest;
      assert c !in p[1..] by {
        assert forall k :: 0 <= k < |p[1..]| ==> p[1..][k] == p[k + 1];
      }
      TakeUntilPrefix(p[1..], rest, c);
    }
  }

  /** `getTemplateForAlertType(alertType, data)` rendered at `timestamp`. The message opens
      with the bell marker and the bold title, closes with the italic time line, and its
      title reads back as the title of the alert type, whatever the data. */
  function Render(alertType: string, data: TemplateData, timestamp: string): (r: string)
    ensures StartsWith(r, TitleOpen + Title(Classify(alertType)) + TitleClose)
    ensures EndsWith(r, TimeOpen + timestamp + TimeClose)
    ensures ParseTitle(r) == Some(Title(Classify(alertType)))
  {
    var title := Title(Classify(alertType));
    LayoutFacts(title, Details(Classify(alertType), data), timestamp);
    BaseMessage(title, Details(Classify(alertType), data), timestamp)
  }

  lemma LayoutFacts(title: string, details: string, timestamp: string)
    requires '<' !in title
    ensures var r := BaseMessage(title, details, timestamp);
            && StartsWith(r, TitleOpen + title + TitleClose)
            && EndsWith(r, TimeOpen + timestamp + TimeClose)
            && ParseTitle(r) == Some(title)
  {
    var r := BaseMessage(title, details, timestamp);
    var rest := TitleClose + details + TimeOpen + timestamp + TimeClose;
    assert r == TitleOpen + title + TitleClose + (details + TimeOpen + timestamp + TimeClose);
    assert r == (TitleOpen + title + TitleClose + details) + (TimeOpen + timestamp + TimeClose);
    assert r == TitleOpen + (title + rest);
    assert r[|TitleOpen|..] == title + rest;
    assert StartsWith(rest, ['<']) by {
      assert rest[0] == TitleClose[0] == '<';
    }
    TakeUntilPrefix(title, rest, '<');
  }

  /** The details read back from between the title block and the time line; with Render's
      prefix and suffix this fixes the whole layout. */
  lemma RenderLayout(alertType: string, data: TemplateData, timestamp: string)
    ensures var r := Render(alertType, data, timestamp);
            var p := |TitleOpen + Title(Classify(alertType)) + TitleClose|;
            var q := |TimeOpen + timestamp + TimeClose|;
            p + q <= |r| && r[p..|r| - q] == Details(Classify(alertType), data)
  {
    var head := TitleOpen + Title(Classify(alertType)) + TitleClose;
    var details := Details(Classify(alertType), data);
    var tail := TimeOpen + timestamp + TimeClose;
    assert Render(alertType, data, timestamp) == head + details + tail;
    MiddleReadsBack(head, details, tail);
  }

  lemma MiddleReadsBack(a: string, b: string, c: string)
    ensures (a + b + c)[|a|..|a + b + c| - |c|] == b
  {
  }

  /** A tag outside the seven named cases renders the generic alert. */
  lemma UnknownTagIsGeneric(alertType: string, data: TemplateData, timestamp: string)
    requires alertType !in {"PRODUCTS_CREATE", "PRODUCTS_UPDATE", "PRODUCTS_DELETE", "SIGN_UP",
                            "SIGN_IN", "CHECK_OUT", "SYSTEM_ISSUE"}
    ensures ParseTitle(Render(alertType, data, timestamp)) == Some("Alert Notification")
    ensures StartsWith(Details(Classify(alertType), data), "An alert has been triggered for your shop")
  {
  }

  /** With every field absent each case renders its bare sentence. */
  lemma BareSentences()
    ensures Details(ProductsCreate, NoData) == "A new product has been created."
    ensures Details(ProductsUpdate, NoData) == "A product has been updated."
    ensures Details(ProductsDelete, NoData) == "A product has been deleted."
    ensures Details(SignUp, NoData) == "A new customer has registered."
    ensures Details(SignIn, NoData) == "Customer has signed in."
    ensures Details(CheckOut, NoData) == "A new order has been placed."
    ensures Details(SystemIssue, NoData) == "A system issue has been detected."
    ensures Details(Other, NoData) == "An alert has been triggered for your shop."
  {
    BareProductSentences();
    BareCustomerSentences();
    BareShopSentences();
  }

  lemma BareProductSentences()
    ensures Details(ProductsCreate, NoData) == "A new product has been created."
    ensures Details(ProductsUpdate, NoData) == "A product has been updated."
    ensures Details(ProductsDelete, NoData) == "A product has been deleted."
  {
    assert forall before, after :: Optional(None, before, after) == "";
  }

  lemma BareCustomerSentences()
    ensures Details(SignUp, NoData) == "A new customer has registered."
    ensures Details(SignIn, NoData) == "Customer has signed in."
  {
    assert forall before, after :: Optional(None, before, after) == "";
  }

  lemma BareShopSentences()
    ensures Details(CheckOut, NoData) == "A new order has been placed."
    ensures Details(SystemIssue, NoData) == "A system issue has been detected."
    ensures Details(Other, NoData) == "An alert has been triggered for your shop."
  {
    assert forall before, after :: Optional(None, before, after) == "";
  }

  /** The fields each case reads. */
  datatype Field = ShopName | ProductTitle | ProductId | OrderId | CustomerName | CustomerEmail
                 | ErrorMessage

  function FieldValue(d: TemplateData, f: Field): Option<string> {
    match f
    case ShopName => d.shopName
    case ProductTitle => d.productTitle
    case ProductId => d.productId
    case OrderId => d.orderId
    case CustomerName => d.customerName
    case CustomerEmail => d.customerEmail
    case ErrorMessage => d.errorMessage
  }

  function UsedFields(c: Case): set<Field> {
    match c
    case ProductsCreate => {ShopName, ProductTitle}
    case ProductsUpdate => {ShopName, ProductTitle}
    case SignUp => {ShopName, CustomerName}
    case SignIn => {ShopName, CustomerName}
    case SystemIssue => {ShopName, ErrorMessage}
    case _ => {ShopName}
  }

  /** Two optional fields render alike: both absent or empty, or both the same text. */
  predicate Alike(f: Option<string>, g: Option<string>) {
    Present(f) == Present(g) && (Present(f) ==> f.value == g.value)
  }

  lemma OptionalAlike(f: Option<string>, g: Option<string>, before: string, after: string)
    requires Alike(f, g)
    ensures Optional(f, before, after) == Optional(g, before, after)
  {
  }

  /** Two data bags that agree on the fields a case reads render the same details: product
      id, order id and customer email never appear, and deletion, checkout and the generic
      alert show nothing but the shop name. */
  lemma DetailsReadOnlyUsedFields(c: Case, d1: TemplateData, d2: TemplateData)
    requires forall f :: f in UsedFields(c) ==> Alike(FieldValue(d1, f), FieldValue(d2, f))
    ensures Details(c, d1) == Details(c, d2)
  {
    assert ShopName in UsedFields(c);
    OptionalAlike(d1.shopName, d2.shopName, " in shop \"", "\"");
    match c
    case ProductsCreate =>
      assert ProductTitle in UsedFields(c);
      OptionalAlike(d1.productTitle, d2.productTitle, " <b>\"", "\"</b>");
    case ProductsUpdate =>
      assert ProductTitle in UsedFields(c);
      OptionalAlike(d1.productTitle, d2.productTitle, " <b>\"", "\"</b>");
    case SignUp =>
      assert CustomerName in UsedFields(c);
      OptionalAlike(d1.customerName, d2.customerName, " <b>", "</b>");
    case SignIn =>
      assert CustomerName in UsedFields(c);
      OptionalAlike(d1.customerName, d2.customerName, " <b>", "</b>");
    case SystemIssue =>
      assert ErrorMessage in UsedFields(c);
      OptionalAlike(d1.errorMessage, d2.errorMessage, ErrorDetailsHeading, "");
    case _ =>
  }

  /** An empty field renders exactly like an absent one. */
  function Normalize(f: Option<string>): (g: Option<string>)
    ensures Alike(f, g)
    ensures g.Some? ==> g.value != ""
  {
    if Present(f) then f else None
  }

  lemma EmptyFieldsAreAbsent(alertType: string, d: TemplateData, timestamp: string)
    ensures Render(alertType, d, timestamp)
         == Render(alertType, TemplateData(Normalize(d.shopName), Normalize(d.productTitle),
                     Normalize(d.productId), Normalize(d.orderId), Normalize(d.customerName),
                     Normalize(d.customerEmail), Normalize(d.errorMessage)), timestamp)
  {
    var nd := TemplateData(Normalize(d.shopName), Normalize(d.productTitle),
                Normalize(d.productId), Normalize(d.orderId), Normalize(d.customerName),
                Normalize(d.customerEmail), Normalize(d.errorMessage));
    forall f | f in UsedFields(Classify(alertType))
      ensures Alike(FieldValue(d, f), FieldValue(nd, f))
    {
      match f
      case ShopName =>
      case ProductTitle =>
      case ProductId =>
      case OrderId =>
      case CustomerName =>
      case CustomerEmail =>
      case ErrorMessage =>
    }
    DetailsReadOnlyUsedFields(Classify(alertType), d, nd);
  }

  /** For product creation and update the bold quoted title follows the opening words iff
      the product title is present. */
  lemma ProductTitleShownIffPresent(c: Case, d: TemplateData)
    requires c == ProductsCreate || c == ProductsUpdate
    ensures var lead := if c == ProductsCreate then "A new product" else "A product";
            StartsWith(Details(c, d), lead + " <b>") <==> Present(d.productTitle)
    ensures Present(d.productTitle) ==>
            StartsWith(Details(c, d),
              (if c == ProductsCreate then "A new product" else "A product")
              + " <b>\"" + d.productTitle.value + "\"</b>")
  {
    var opt := Optional(d.productTitle, " <b>\"", "\"</b>");
    var shop := Optional(d.shopName, " in shop \"", "\"");
    if c == ProductsCreate {
      assert Details(c, d) == "A new product" + opt + " has been created" + shop + ".";
      LeadFacts(d.productTitle, "A new product", " has been created" + shop + ".");
    } else {
      assert Details(c, d) == "A product" + opt + " has been updated" + shop + ".";
      LeadFacts(d.productTitle, "A product", " has been updated" + shop + ".");
    }
  }

  lemma LeadFacts(title: Option<string>, lead: string, tail: string)
    requires StartsWith(tail, " h")
    ensures var s := lead + Optional(title, " <b>\"", "\"</b>") + tail;
            && (StartsWith(s, lead + " <b>") <==> Present(title))
            && (Present(title) ==> StartsWith(s, lead + " <b>\"" + title.value + "\"</b>"))
  {
    var s := lead + Optional(title, " <b>\"", "\"</b>") + tail;
    if Present(title) {
      var t := title.value;
      assert s == (lead + " <b>") + ("\"" + t + "\"</b>" + tail);
      PrefixOfConcat(lead + " <b>", "\"" + t + "\"</b>" + tail);
      assert s == (lead + " <b>\"" + t + "\"</b>") + tail;
      PrefixOfConcat(lead + " <b>\"" + t + "\"</b>", tail);
    } else {
      assert s == lead + tail;
      assert s[|lead| + 1] == tail[1] == 'h';
      assert (lead + " <b>")[|lead| + 1] == '<';
    }
  }

  lemma PrefixOfConcat(a: string, b: string)
    ensures StartsWith(a + b, a)
  {
    assert (a + b)[..|a|] == a;
  }

  /** The system issue details are the bare sentence plus, iff an error message is present,
      the error details block. */
  lemma SystemIssueErrorDetails(d: TemplateData)
    ensures Present(d.errorMessage) ==>
            Details(SystemIssue, d)
            == Details(SystemIssue, d.(errorMessage := None)) + ErrorDetailsHeading + d.errorMessage.value
    ensures !Present(d.errorMessage) ==>
            Details(SystemIssue, d) == Details(SystemIssue, d.(errorMessage := None))
  {
  }

  /** Metadata entries in `Object.entries` order; values are already rendered as text. */
  type Metadata = seq<(string, string)>

  const MetadataHeader := "\n\n<b>Additional Information:</b>"

  function EntryLine(key: string, value: string): string {
    "\n<b>" + key + ":</b> " + value
  }

  /** The lines the `for` loop appends, one per entry, built in loop order (last entry
      appended last); the contract reads them from the front. */
  function Lines(md: Metadata): (r: string)
    ensures |md| > 0 ==> r == EntryLine(md[0].0, md[0].1) + Lines(md[1..])
    ensures |md| == 0 ==> r == ""
  {
    if |md| == 0 then ""
    else
      var init := md[..|md| - 1];
      assert |init| > 0 ==> init[1..] == md[1..][..|md[1..]| - 1];
      Lines(init) + EntryLine(md[|md| - 1].0, md[|md| - 1].1)
  }

  /** `formatMetadata(metadata)`: "" for no entries, otherwise the header followed by one
      line per entry in entry order. */
  function FormatMetadata(md: Metadata): (r: string)
    ensures r == "" <==> |md| == 0
    ensures |md| > 0 ==> r == MetadataHeader + EntryLine(md[0].0, md[0].1) + Lines(md[1..])
  {
    if |md| == 0 then "" else MetadataHeader + Lines(md)
  }

  /** The metadata lines of concatenated entry lists are the concatenated lines. */
  lemma {:induction false} LinesAppend(a: Metadata, b: Metadata)
    ensures Lines(a + b) == Lines(a) + Lines(b)
  {
    if |a| > 0 {
      assert (a + b)[1..] == a[1..] + b;
      LinesAppend(a[1..], b);
    } else {
      assert a + b == b;
    }
  }
}
