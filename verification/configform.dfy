/** The alert configuration form (`AlertConfigForm`): the checkbox state built from the
    stored configuration, its updates, the select-all / unselect-all controls, the grouping
    of the options by category, and the form fields it submits. Rendering is not modelled.
 */
module ConfigForm {
  import opened Wrappers
  import opened Records
  import opened FormData

  /** The twenty options, in the key order of the checkbox state. Each option edits the
      configuration column of the same name. */
  const Options: seq<Field> := [
    ProductCreate, ProductUpdate, ProductDelete,
    CustomersCreate, CustomersUpdate, CustomersDelete, CustomersRedact,
    Checkout, OrdersUpdated, OrdersCancelled, OrdersFulfilled,
    CheckoutsCreate, CheckoutsUpdate,
    InventoryUpdate,
    ThemesCreate, ThemesUpdate, ThemesDelete, ThemesPublish,
    ShopUpdate,
    SystemIssue]

  predicate IsOption(f: Field) {
    f != Signup && f != Signin
  }

  lemma OptionsAreTheOptionFields()
    ensures forall f :: f in Options <==> IsOption(f)
    ensures |Options| == 20
    ensures forall i, j :: 0 <= i < j < |Options| ==> Options[i] != Options[j]
  {
  }

  /** The form key of an option: its snake_case name. */
  function OptionKey(f: Field): string
    requires IsOption(f)
  {
    match f
    case ProductCreate => "product_create"
    case ProductUpdate => "product_update"
    case ProductDelete => "product_delete"
    case CustomersCreate => "customers_create"
    case CustomersUpdate => "customers_update"
    case CustomersDelete => "customers_delete"
    case CustomersRedact => "customers_redact"
    case Checkout => "checkout"
    case OrdersUpdated => "orders_updated"
    case OrdersCancelled => "orders_cancelled"
    case OrdersFulfilled => "orders_fulfilled"
    case CheckoutsCreate => "checkouts_create"
    case CheckoutsUpdate => "checkouts_update"
    case InventoryUpdate => "inventory_update"
    case ThemesCreate => "themes_create"
    case ThemesUpdate => "themes_update"
    case ThemesDelete => "themes_delete"
    case ThemesPublish => "themes_publish"
    case ShopUpdate => "shop_update"
    case SystemIssue => "system_issue"
  }

  /** The option a form key names, if any: the inverse of OptionKey. */
  function OptionNamed(key: string): (r: Option<Field>)
    ensures r.Some? ==> IsOption(r.value) && OptionKey(r.value) == key
  {
    if key == "product_create" then Some(ProductCreate)
    else if key == "product_update" then Some(ProductUpdate)
    else if key == "product_delete" then Some(ProductDelete)
    else if key == "customers_create" then Some(CustomersCreate)
    else if key == "customers_update" then Some(CustomersUpdate)
    else if key == "customers_delete" then Some(CustomersDelete)
    else if key == "customers_redact" then Some(CustomersRedact)
    else if key == "checkout" then Some(Checkout)
    else if key == "orders_updated" then Some(OrdersUpdated)
    else if key == "orders_cancelled" then Some(OrdersCancelled)
    else if key == "orders_fulfilled" then Some(OrdersFulfilled)
    else if key == "checkouts_create" then Some(CheckoutsCreate)
    else if key == "checkouts_update" then Some(CheckoutsUpdate)
    else if key == "inventory_update" then Some(InventoryUpdate)
    else if key == "themes_create" then Some(ThemesCreate)
    else if key == "themes_update" then Some(ThemesUpdate)
    else if key == "themes_delete" then Some(ThemesDelete)
    else if key == "themes_publish" then Some(ThemesPublish)
    else if key == "shop_update" then Some(ShopUpdate)
    else if key == "system_issue" then Some(SystemIssue)
    else None
  }

  /** OptionNamed inverts OptionKey. */
  lemma OptionKeyRoundTrip(f: Field)
    requires IsOption(f)
    ensures OptionNamed(OptionKey(f)) == Some(f)
  {
    if f in {ProductCreate, ProductUpdate, ProductDelete} {
      ProductKeysRoundTrip(f);
    } else if f in {CustomersCreate, CustomersUpdate, CustomersDelete, CustomersRedact} {
      CustomerKeysRoundTrip(f);
    } else if f in {Checkout, OrdersUpdated, OrdersCancelled, OrdersFulfilled, CheckoutsCreate, CheckoutsUpdate} {
      OrderKeysRoundTrip(f);
    } else if f in {ThemesCreate, ThemesUpdate, ThemesDelete, ThemesPublish} {
      ThemeKeysRoundTrip(f);
    } else if f in {InventoryUpdate, ShopUpdate} {
      ShopKeysRoundTrip(f);
    } else {
      SystemKeyRoundTrip(f);
    }
  }

  /** The product options. */
  lemma ProductKeysRoundTrip(f: Field)
    requires f in {ProductCreate, ProductUpdate, ProductDelete}
    ensures IsOption(f) && OptionNamed(OptionKey(f)) == Some(f)
  {
  }

  /** The customer options. */
  lemma CustomerKeysRoundTrip(f: Field)
    requires f in {CustomersCreate, CustomersUpdate, CustomersDelete, CustomersRedact}
    ensures IsOption(f) && OptionNamed(OptionKey(f)) == Some(f)
  {
  }

  /** The checkout and order options. */
  lemma OrderKeysRoundTrip(f: Field)
    requires f in {Checkout, OrdersUpdated, OrdersCancelled, OrdersFulfilled, CheckoutsCreate, CheckoutsUpdate}
    ensures IsOption(f) && OptionNamed(OptionKey(f)) == Some(f)
  {
  }

  /** The theme options. */
  lemma ThemeKeysRoundTrip(f: Field)
    requires f in {ThemesCreate, ThemesUpdate, ThemesDelete, ThemesPublish}
    ensures IsOption(f) && OptionNamed(OptionKey(f)) == Some(f)
  {
  }

  /** The inventory and shop options. */
  lemma ShopKeysRoundTrip(f: Field)
    requires f in {InventoryUpdate, ShopUpdate}
    ensures IsOption(f) && OptionNamed(OptionKey(f)) == Some(f)
  {
  }

  /** The system-issue option. */
  lemma SystemKeyRoundTrip(f: Field)
    requires f == SystemIssue
    ensures IsOption(f) && OptionNamed(OptionKey(f)) == Some(f)
  {
  }

  /** Distinct options have distinct form keys. */
  lemma OptionKeysDistinct(f: Field, g: Field)
    requires IsOption(f) && IsOption(g) && f != g
    ensures OptionKey(f) != OptionKey(g)
  {
    OptionKeyRoundTrip(f);
    OptionKeyRoundTrip(g);
  }

  /** The checkbox state: one flag per option. */
  type Selected = map<Field, bool>

  predicate WellFormed(sel: Selected) {
    forall f :: f in sel <==> IsOption(f)
  }

  /** The initial flag of one option: its column when not null, for the two customer
      options then the legacy column, else false. */
  function InitialFlag(init: Option<Flags>, f: Field): bool {
    match init
    case None => false
    case Some(flags) =>
      if f == CustomersCreate then FlagOr(flags, CustomersCreate, FlagOr(flags, Signup, false))
      else if f == CustomersUpdate then FlagOr(flags, CustomersUpdate, FlagOr(flags, Signin, false))
      else FlagOr(flags, f, false)
  }

  /** The initial `selectedOptions` built from the stored configuration (None for null).
      Without a configuration every option is off; an option whose column is stored takes
      that value; `customers_create` / `customers_update` fall back to the legacy `signup` /
      `signin` columns only when their own column is missing. */
  function InitialSelected(init: Option<Flags>): (sel: Selected)
    ensures WellFormed(sel)
    ensures init.None? ==> forall f :: f in sel ==> !sel[f]
    ensures init.Some? ==> forall f :: f in sel && f in init.value ==> sel[f] == init.value[f]
    ensures init.Some? ==> forall f :: (f in sel && f !in init.value
              && f != CustomersCreate && f != CustomersUpdate) ==> !sel[f]
    ensures init.Some? && CustomersCreate !in init.value ==>
              sel[CustomersCreate] == (Signup in init.value && init.value[Signup])
    ensures init.Some? && CustomersUpdate !in init.value ==>
              sel[CustomersUpdate] == (Signin in init.value && init.value[Signin])
  {
    map f | IsOption(f) :: InitialFlag(init, f)
  }

  /** An explicit `customersCreate: false` wins over a legacy `signup: true`. */
  lemma ExplicitColumnOverridesLegacy(flags: Flags)
    requires CustomersCreate in flags && !flags[CustomersCreate]
    requires Signup in flags && flags[Signup]
    ensures !InitialSelected(Some(flags))[CustomersCreate]
  {
  }

  /** `handleChange(id)(checked)`: sets option `id` and nothing else. */
  function HandleChange(sel: Selected, id: Field, checked: bool): (r: Selected)
    requires WellFormed(sel) && IsOption(id)
    ensures WellFormed(r)
    ensures r[id] == checked
    ensures forall f :: f in sel && f != id ==> r[f] == sel[f]
  {
    sel[id := checked]
  }

  /** `isAllSelected`: every option is on. */
  predicate IsAllSelected(sel: Selected) {
    forall f :: f in sel ==> sel[f]
  }

  /** `isNoneSelected`: every option is off. */
  predicate IsNoneSelected(sel: Selected) {
    forall f :: f in sel ==> !sel[f]
  }

  /** `handleSelectAll`: the same options, all on. */
  function SelectAll(sel: Selected): (r: Selected)
    ensures r.Keys == sel.Keys
    ensures IsAllSelected(r)
    ensures sel.Keys != {} ==> !IsNoneSelected(r)
  {
    map f | f in sel :: true
  }

  /** `handleUnselectAll`: the same options, all off. */
  function UnselectAll(sel: Selected): (r: Selected)
    ensures r.Keys == sel.Keys
    ensures IsNoneSelected(r)
    ensures sel.Keys != {} ==> !IsAllSelected(r)
  {
    map f | f in sel :: false
  }

  /** `value.toString()` of a flag. */
  function FlagText(b: bool): string {
    if b then "true" else "false"
  }

  /** `handleSaveConfiguration`: one field per option, in state key order, named by the
      option's key and holding "true" or "false". */
  function SaveForm(sel: Selected): (form: Entries)
    requires WellFormed(sel)
    ensures |form| == |Options|
    ensures forall i :: 0 <= i < |form| ==>
              && form[i].0 == OptionKey(Options[i])
              && (form[i].1 == Text("true") || form[i].1 == Text("false"))
              && (form[i].1 == Text("true") <==> sel[Options[i]])
  {
    OptionsAreTheOptionFields();
    seq(|Options|, i requires 0 <= i < |Options| => (OptionKey(Options[i]), Text(FlagText(sel[Options[i]]))))
  }

  /** Reading the saved form back: each option's key holds its own flag. */
  lemma SavedFields(sel: Selected, f: Field)
    requires WellFormed(sel) && IsOption(f)
    ensures OptionKey(f) in FromEntries(SaveForm(sel))
    ensures FromEntries(SaveForm(sel))[OptionKey(f)] == Text(FlagText(sel[f]))
  {
    OptionsAreTheOptionFields();
    var form := SaveForm(sel);
    var i :| 0 <= i < |Options| && Options[i] == f;
    assert form[i].0 == OptionKey(f);
    forall j | i < j < |form|
      ensures form[j].0 != form[i].0
    {
      OptionKeysDistinct(Options[j], f);
    }
    assert LastFor(form, i);
    LastEntryWins(form, i);
  }

  /** A key that names no option is not in the saved form. */
  lemma UnsavedKey(sel: Selected, key: string)
    requires WellFormed(sel) && OptionNamed(key).None?
    ensures key !in FromEntries(SaveForm(sel))
  {
    var form := SaveForm(sel);
    forall i | 0 <= i < |form|
      ensures form[i].0 != key
    {
      OptionsAreTheOptionFields();
      OptionKeyRoundTrip(Options[i]);
    }
  }

  /** One checkbox of the option list. */
  datatype AlertOption = AlertOption(id: Field, caption: string, category: string)

  datatype Group = Group(category: string, options: seq<AlertOption>)

  function CategoriesOf(opts: seq<AlertOption>): (cats: seq<string>)
    ensures |cats| == |opts| && forall i :: 0 <= i < |opts| ==> cats[i] == opts[i].category
  {
    seq(|opts|, i requires 0 <= i < |opts| => opts[i].category)
  }

  function GroupCategories(groups: seq<Group>): (cats: seq<string>)
    ensures |cats| == |groups| && forall i :: 0 <= i < |groups| ==> cats[i] == groups[i].category
  {
    seq(|groups|, i requires 0 <= i < |groups| => groups[i].category)
  }

  /** The distinct elements of `s` in order of first occurrence. */
  function FirstSeen(s: seq<string>): (r: seq<string>)
    ensures forall c :: c in r <==> c in s
    ensures forall i, j :: 0 <= i < j < |r| ==> r[i] != r[j]
  {
    if |s| == 0 then []
    else
      var p := FirstSeen(s[..|s| - 1]);
      assert forall c :: c in s <==> c in s[..|s| - 1] || c == s[|s| - 1] by {
        assert s == s[..|s| - 1] + [s[|s| - 1]];
      }
      if s[|s| - 1] in p then p else p + [s[|s| - 1]]
  }

  /** The options of one category, in list order. */
  function InCategory(opts: seq<AlertOption>, category: string): (r: seq<AlertOption>)
    ensures forall o :: o in r <==> o in opts && o.category == category
  {
    if |opts| == 0 then []
    else
      var last := opts[|opts| - 1];
      assert opts == opts[..|opts| - 1] + [last];
      InCategory(opts[..|opts| - 1], category) + (if last.category == category then [last] else [])
  }

  lemma {:induction false} InCategoryOfUnseen(opts: seq<AlertOption>, category: string)
    requires category !in CategoriesOf(opts)
    ensures InCategory(opts, category) == []
  {
    if |opts| > 0 {
      var init := opts[..|opts| - 1];
      assert opts[|opts| - 1].category == CategoriesOf(opts)[|opts| - 1];
      assert category !in CategoriesOf(init) by {
        assert forall i :: 0 <= i < |init| ==> CategoriesOf(init)[i] == CategoriesOf(opts)[i];
      }
      InCategoryOfUnseen(init, category);
    }
  }

  /** `groups` is the grouping of `opts`: categories in order of first appearance, each
      group holding exactly the options of its category in list order. */
  predicate GroupsOf(opts: seq<AlertOption>, groups: seq<Group>) {
    && GroupCategories(groups) == FirstSeen(CategoriesOf(opts))
    && forall g :: 0 <= g < |groups| ==> groups[g].options == InCategory(opts, groups[g].category)
  }

  /** One more option extends the list of its category and no other. */
  lemma InCategoryAppend(opts: seq<AlertOption>, o: AlertOption, category: string)
    ensures InCategory(opts + [o], category)
         == InCategory(opts, category) + (if o.category == category then [o] else [])
  {
    assert (opts + [o])[..|opts|] == opts;
  }

  /** One more category is appended iff it has not been seen. */
  lemma FirstSeenAppend(s: seq<string>, c: string)
    ensures FirstSeen(s + [c]) == if c in FirstSeen(s) then FirstSeen(s) else FirstSeen(s) + [c]
  {
    assert (s + [c])[..|s|] == s;
  }

  lemma CategoriesAppend(opts: seq<AlertOption>, o: AlertOption)
    ensures CategoriesOf(opts + [o]) == CategoriesOf(opts) + [o.category]
  {
  }

  /** Adding an option of a category that already has a group extends that group. */
  lemma GroupIntoExisting(opts: seq<AlertOption>, groups: seq<Group>, o: AlertOption, j: int)
    requires GroupsOf(opts, groups)
    requires 0 <= j < |groups| && groups[j].category == o.category
    ensures GroupsOf(opts + [o], groups[j := Group(o.category, groups[j].options + [o])])
  {
    ExistingCategories(opts, groups, o, j);
    DistinctCategories(opts, groups);
    ExtendedGroupContents(opts, groups, o, j);
  }

  lemma ExistingCategories(opts: seq<AlertOption>, groups: seq<Group>, o: AlertOption, j: int)
    requires GroupCategories(groups) == FirstSeen(CategoriesOf(opts))
    requires 0 <= j < |groups| && groups[j].category == o.category
    ensures GroupCategories(groups[j := Group(o.category, groups[j].options + [o])])
         == FirstSeen(CategoriesOf(opts + [o]))
  {
    CategoriesAppend(opts, o);
    assert o.category in FirstSeen(CategoriesOf(opts)) by {
      assert GroupCategories(groups)[j] == o.category;
    }
    FirstSeenAppend(CategoriesOf(opts), o.category);
    assert GroupCategories(groups[j := Group(o.category, groups[j].options + [o])]) == GroupCategories(groups);
  }

  /** Groups built along the list have distinct categories. */
  lemma DistinctCategories(opts: seq<AlertOption>, groups: seq<Group>)
    requires GroupCategories(groups) == FirstSeen(CategoriesOf(opts))
    ensures forall g, h :: 0 <= g < h < |groups| ==> groups[g].category != groups[h].category
  {
    forall g, h | 0 <= g < h < |groups|
      ensures groups[g].category != groups[h].category
    {
      assert GroupCategories(groups)[g] != GroupCategories(groups)[h];
    }
  }

  lemma ExtendedGroupContents(opts: seq<AlertOption>, groups: seq<Group>, o: AlertOption, j: int)
    requires forall g :: 0 <= g < |groups| ==> groups[g].options == InCategory(opts, groups[g].category)
    requires forall g, h :: 0 <= g < h < |groups| ==> groups[g].category != groups[h].category
    requires 0 <= j < |groups| && groups[j].category == o.category
    ensures var groups' := groups[j := Group(o.category, groups[j].options + [o])];
            forall g :: 0 <= g < |groups'| ==> groups'[g].options == InCategory(opts + [o], groups'[g].category)
  {
    var groups' := groups[j := Group(o.category, groups[j].options + [o])];
    forall g | 0 <= g < |groups'|
      ensures groups'[g].options == InCategory(opts + [o], groups'[g].category)
    {
      InCategoryAppend(opts, o, groups'[g].category);
      if g < j {
        assert groups[g].category != groups[j].category;
      } else if g > j {
        assert groups[j].category != groups[g].category;
      }
    }
  }

  /** Adding an option of a new category appends a group holding just that option. */
  lemma GroupIntoNew(opts: seq<AlertOption>, groups: seq<Group>, o: AlertOption)
    requires GroupsOf(opts, groups)
    requires o.category !in GroupCategories(groups)
    ensures GroupsOf(opts + [o], groups + [Group(o.category, [o])])
  {
    NewCategories(opts, groups, o);
    NewGroupContents(opts, groups, o);
  }

  lemma NewCategories(opts: seq<AlertOption>, groups: seq<Group>, o: AlertOption)
    requires GroupCategories(groups) == FirstSeen(CategoriesOf(opts))
    requires o.category !in GroupCategories(groups)
    ensures GroupCategories(groups + [Group(o.category, [o])]) == FirstSeen(CategoriesOf(opts + [o]))
    ensures o.category !in CategoriesOf(opts)
  {
    CategoriesAppend(opts, o);
    FirstSeenAppend(CategoriesOf(opts), o.category);
    assert GroupCategories(groups + [Group(o.category, [o])]) == GroupCategories(groups) + [o.category];
  }

  lemma NewGroupContents(opts: seq<AlertOption>, groups: seq<Group>, o: AlertOption)
    requires forall g :: 0 <= g < |groups| ==> groups[g].options == InCategory(opts, groups[g].category)
    requires o.category !in GroupCategories(groups) && o.category !in CategoriesOf(opts)
    ensures var groups' := groups + [Group(o.category, [o])];
            forall g :: 0 <= g < |groups'| ==> groups'[g].options == InCategory(opts + [o], groups'[g].category)
  {
    var groups' := groups + [Group(o.category, [o])];
    forall g | 0 <= g < |groups'|
      ensures groups'[g].options == InCategory(opts + [o], groups'[g].category)
    {
      InCategoryAppend(opts, o, groups'[g].category);
      if g == |groups| {
        InCategoryOfUnseen(opts, o.category);
      } else {
        assert groups[g].category == GroupCategories(groups)[g];
      }
    }
  }

  /** `groupedOptions`: one group per category, categories in order of first appearance,
      each group holding exactly the options of its category in list order. */
  method GroupOptions(options: seq<AlertOption>) returns (groups: seq<Group>)
    ensures GroupCategories(groups) == FirstSeen(CategoriesOf(options))
    ensures forall g :: 0 <= g < |groups| ==> groups[g].options == InCategory(options, groups[g].category)
    ensures forall o :: o in options ==>
              exists g :: 0 <= g < |groups| && groups[g].category == o.category && o in groups[g].options
  {
    groups := [];
    var i := 0;
    while i < |options|
      invariant 0 <= i <= |options|
      invariant GroupsOf(options[..i], groups)
    {
      var opt := options[i];
      assert options[..i + 1] == options[..i] + [opt];
      if opt.category in GroupCategories(groups) {
        var j :| 0 <= j < |groups| && GroupCategories(groups)[j] == opt.category;
        GroupIntoExisting(options[..i], groups, opt, j);
        groups := groups[j := Group(opt.category, groups[j].options + [opt])];
      } else {
        GroupIntoNew(options[..i], groups, opt);
        groups := groups + [Group(opt.category, [opt])];
      }
      i := i + 1;
    }
    assert options[..i] == options;
    EveryOptionGrouped(options, groups);
  }

  /** In a grouping every option sits in the group of its category. */
  lemma EveryOptionGrouped(options: seq<AlertOption>, groups: seq<Group>)
    requires GroupsOf(options, groups)
    ensures forall o :: o in options ==>
              exists g :: 0 <= g < |groups| && groups[g].category == o.category && o in groups[g].options
  {
    forall o | o in options
      ensures exists g :: 0 <= g < |groups| && groups[g].category == o.category && o in groups[g].options
    {
      var k :| 0 <= k < |options| && options[k] == o;
      assert CategoriesOf(options)[k] == o.category;
      assert o.category in GroupCategories(groups);
      var g :| 0 <= g < |groups| && GroupCategories(groups)[g] == o.category;
      assert o in groups[g].options;
    }
  }
}
