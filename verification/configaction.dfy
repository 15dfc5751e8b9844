/** The configuration route action: decodes the submitted form fields into the alert
    configuration record it upserts. The shop id is the route's fixed placeholder.
 */
module ConfigAction {
  import opened Wrappers
  import opened Records
  import opened FormData
  import ConfigForm
  import Gate

  const ShopId := "12345678"

  /** `data[key] === "true"` */
  predicate IsTrue(data: map<string, FormValue>, key: string) {
    key in data && data[key] == Text("true")
  }

  /** The form key named after a column: the option's key, or the legacy column's name. */
  function ColumnKey(f: Field): string {
    if ConfigForm.IsOption(f) then ConfigForm.OptionKey(f)
    else match f
      case Signup => "signup"
      case Signin => "signin"
  }

  /** The seven columns the action writes. */
  const DecodedColumns: set<Field> := {ProductCreate, ProductUpdate, ProductDelete, Signup, Signin, Checkout, SystemIssue}

  /** `action`: each of the seven columns is read from the form key named after it, true
      iff that key holds exactly "true"; the shop id is the fixed placeholder. */
  function DecodeConfiguration(entries: Entries): (c: AlertConfig)
    ensures c.shopId == ShopId
    ensures c.flags.Keys == DecodedColumns
  {
    var data := FromEntries(entries);
    AlertConfig(ShopId, map f | f in DecodedColumns :: IsTrue(data, ColumnKey(f)))
  }

  /** A decoded column is true iff the last field submitted under its key is the text
      "true"; a key that was not submitted, or any other value, gives false. */
  lemma DecodedColumn(entries: Entries, f: Field)
    requires f in DecodedColumns
    ensures DecodeConfiguration(entries).flags[f]
        <==> exists i :: 0 <= i < |entries| && entries[i] == (ColumnKey(f), Text("true")) && LastFor(entries, i)
  {
    LookupIsLastEntry(entries, ColumnKey(f), Text("true"));
  }

  /** The five options the action reads under their own keys. */
  predicate Persisted(f: Field) {
    f in {ProductCreate, ProductUpdate, ProductDelete, Checkout, SystemIssue}
  }

  /** Decoding what the form saves: the five persisted options come back as selected, and
      `signup` / `signin` are false for every submission, since the form never sends them. */
  lemma DecodeSavedForm(sel: ConfigForm.Selected)
    requires ConfigForm.WellFormed(sel)
    ensures forall f :: Persisted(f) ==> DecodeConfiguration(ConfigForm.SaveForm(sel)).flags[f] == sel[f]
    ensures !DecodeConfiguration(ConfigForm.SaveForm(sel)).flags[Signup]
    ensures !DecodeConfiguration(ConfigForm.SaveForm(sel)).flags[Signin]
  {
    forall f | Persisted(f)
      ensures DecodeConfiguration(ConfigForm.SaveForm(sel)).flags[f] == sel[f]
    {
      DecodeSavedOption(sel, f);
    }
    DecodeUnsavedColumn(sel, Signup);
    DecodeUnsavedColumn(sel, Signin);
  }

  /** A persisted option is decoded from the flag the form saved under its key. */
  lemma DecodeSavedOption(sel: ConfigForm.Selected, f: Field)
    requires ConfigForm.WellFormed(sel) && Persisted(f)
    ensures DecodeConfiguration(ConfigForm.SaveForm(sel)).flags[f] == sel[f]
  {
    ConfigForm.SavedFields(sel, f);
  }

  /** A legacy column is decoded from a key the form does not send, so it is false. */
  lemma DecodeUnsavedColumn(sel: ConfigForm.Selected, f: Field)
    requires ConfigForm.WellFormed(sel) && (f == Signup || f == Signin)
    ensures !DecodeConfiguration(ConfigForm.SaveForm(sel)).flags[f]
  {
    assert ConfigForm.OptionNamed(ColumnKey(f)).None?;
    ConfigForm.UnsavedKey(sel, ColumnKey(f));
  }

  /** Fields submitted after the others under keys that name none of the seven columns,
      such as `customers_create` or the theme keys, do not change the decoded record. */
  lemma DecodeIgnoresOtherKeys(entries: Entries, extra: Entries)
    requires forall i, f :: 0 <= i < |extra| && f in DecodedColumns ==> extra[i].0 != ColumnKey(f)
    ensures DecodeConfiguration(entries + extra) == DecodeConfiguration(entries)
  {
    var c1, c2 := DecodeConfiguration(entries + extra), DecodeConfiguration(entries);
    forall f | f in DecodedColumns
      ensures c1.flags[f] == c2.flags[f]
    {
      ColumnUnchanged(entries, extra, f);
    }
    assert c1.flags == c2.flags;
  }

  /** One column across the appended fields. */
  lemma ColumnUnchanged(entries: Entries, extra: Entries, f: Field)
    requires f in DecodedColumns
    requires forall i :: 0 <= i < |extra| ==> extra[i].0 != ColumnKey(f)
    ensures DecodeConfiguration(entries + extra).flags[f] == DecodeConfiguration(entries).flags[f]
  {
    AppendOtherKeys(entries, extra, ColumnKey(f));
  }

  /** After the form's submission is decoded, SIGN_UP and SIGN_IN alerts are disabled. */
  lemma SavedFormDisablesSignUpAndSignIn(sel: ConfigForm.Selected)
    requires ConfigForm.WellFormed(sel)
    ensures !Gate.IsAlertEnabled(Some(DecodeConfiguration(ConfigForm.SaveForm(sel))), "SIGN_UP")
    ensures !Gate.IsAlertEnabled(Some(DecodeConfiguration(ConfigForm.SaveForm(sel))), "SIGN_IN")
  {
    DecodeUnsavedColumn(sel, Signup);
    DecodeUnsavedColumn(sel, Signin);
    Gate.MappedTagsReadTheirField(DecodeConfiguration(ConfigForm.SaveForm(sel)));
  }

  /** Saving the form and loading the decoded record back keeps only the five persisted
      options; every other option comes back off. */
  lemma SaveReloadAsWritten(sel: ConfigForm.Selected)
    requires ConfigForm.WellFormed(sel)
    ensures var back := ConfigForm.InitialSelected(Some(DecodeConfiguration(ConfigForm.SaveForm(sel)).flags));
            forall f :: f in back ==> back[f] == (Persisted(f) && sel[f])
  {
    var flags := DecodeConfiguration(ConfigForm.SaveForm(sel)).flags;
    var back := ConfigForm.InitialSelected(Some(flags));
    DecodeSavedForm(sel);
    forall f | f in back
      ensures back[f] == (Persisted(f) && sel[f])
    {
      ReloadFlag(flags, f);
    }
  }

  /** Loading a decoded record: a persisted option shows its column; every other option,
      the customer ones included, shows false because the legacy columns are false. */
  lemma ReloadFlag(flags: Flags, f: Field)
    requires flags.Keys == DecodedColumns && !flags[Signup] && !flags[Signin]
    requires ConfigForm.IsOption(f)
    ensures ConfigForm.InitialSelected(Some(flags))[f] == (Persisted(f) && flags[f])
  {
    if !Persisted(f) {
      assert f !in DecodedColumns;
    }
  }

  /** Any selection with customer creation checked (the "select all" selection, say) loses
      it across a save and reload. */
  lemma SaveReloadLosesCustomerCreation(sel: ConfigForm.Selected)
    requires ConfigForm.WellFormed(sel) && sel[CustomersCreate]
    ensures var back := ConfigForm.InitialSelected(Some(DecodeConfiguration(ConfigForm.SaveForm(sel)).flags));
            !back[CustomersCreate] && back != sel
  {
    var flags := DecodeConfiguration(ConfigForm.SaveForm(sel)).flags;
    DecodeSavedForm(sel);
    ReloadFlag(flags, CustomersCreate);
  }

  /** The decoder the form calls for: every option's column, read from the option's own
      key, as the twenty-column configuration record. */
  function DecodeAllOptions(entries: Entries): (c: AlertConfig)
    ensures c.shopId == ShopId
    ensures forall f :: f in c.flags <==> ConfigForm.IsOption(f)
  {
    var data := FromEntries(entries);
    AlertConfig(ShopId, map f | ConfigForm.IsOption(f) :: IsTrue(data, ConfigForm.OptionKey(f)))
  }

  /** An option's column is true iff the last field submitted under the option's key is the
      text "true". */
  lemma DecodedOption(entries: Entries, f: Field)
    requires ConfigForm.IsOption(f)
    ensures DecodeAllOptions(entries).flags[f]
        <==> exists i :: 0 <= i < |entries| && entries[i] == (ConfigForm.OptionKey(f), Text("true")) && LastFor(entries, i)
  {
    LookupIsLastEntry(entries, ConfigForm.OptionKey(f), Text("true"));
  }

  /** With that decoder a save followed by a reload gives the selection back. */
  lemma SaveReloadCorrected(sel: ConfigForm.Selected)
    requires ConfigForm.WellFormed(sel)
    ensures ConfigForm.InitialSelected(Some(DecodeAllOptions(ConfigForm.SaveForm(sel)).flags)) == sel
  {
    var back := ConfigForm.InitialSelected(Some(DecodeAllOptions(ConfigForm.SaveForm(sel)).flags));
    forall f | ConfigForm.IsOption(f)
      ensures back[f] == sel[f]
    {
      ReloadCorrectedFlag(sel, f);
    }
  }

  /** One option across a save, the full decode and a reload. */
  lemma ReloadCorrectedFlag(sel: ConfigForm.Selected, f: Field)
    requires ConfigForm.WellFormed(sel) && ConfigForm.IsOption(f)
    ensures ConfigForm.InitialSelected(Some(DecodeAllOptions(ConfigForm.SaveForm(sel)).flags))[f] == sel[f]
  {
    ConfigForm.SavedFields(sel, f);
  }
}
