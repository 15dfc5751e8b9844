/** Submitted form data, as the route actions receive it. */
module FormData {

  /** The value of one submitted field. Field values are strings; the receiver form also
      submits its platform list, whose JSON text is modelled as the list itself. */
  datatype FormValue = Text(s: string) | Json(list: seq<string>)

  /** The submitted fields in the order they were appended. */
  type Entries = seq<(string, FormValue)>

  /** Entry `i` is the last one submitted under its key. */
  predicate LastFor(entries: Entries, i: int)
    requires 0 <= i < |entries|
  {
    forall j :: i < j < |entries| ==> entries[j].0 != entries[i].0
  }

  /** `Object.fromEntries(formData)`: one property per submitted key; later entries
      overwrite earlier ones (see LastEntryWins). */
  function FromEntries(entries: Entries): (m: map<string, FormValue>)
    ensures forall k :: k in m <==> exists i :: 0 <= i < |entries| && entries[i].0 == k
  {
    if |entries| == 0 then map[]
    else
      var n := |entries| - 1;
      var init := entries[..n];
      assert forall i :: 0 <= i < n ==> init[i] == entries[i];
      FromEntries(init)[entries[n].0 := entries[n].1]
  }

  /** The property under a key holds the value of the last entry submitted under it. */
  lemma {:induction false} LastEntryWins(entries: Entries, i: int)
    requires 0 <= i < |entries| && LastFor(entries, i)
    ensures entries[i].0 in FromEntries(entries)
    ensures FromEntries(entries)[entries[i].0] == entries[i].1
  {
    var n := |entries| - 1;
    if i < n {
      var init := entries[..n];
      assert init[i] == entries[i];
      assert LastFor(init, i) by {
        forall j | i < j < |init|
          ensures init[j].0 != init[i].0
        {
          assert init[j] == entries[j];
        }
      }
      LastEntryWins(init, i);
    }
  }

  /** Every submitted key has a last entry. */
  lemma {:induction false} LastIndexOf(entries: Entries, k: string) returns (i: nat)
    requires k in FromEntries(entries)
    ensures i < |entries| && entries[i].0 == k && LastFor(entries, i)
  {
    var n := |entries| - 1;
    if entries[n].0 == k {
      i := n;
    } else {
      var init := entries[..n];
      i := LastIndexOf(init, k);
      assert forall j :: 0 <= j < n ==> init[j] == entries[j];
    }
  }

  /** The property under `k` holds `v` iff the last entry submitted under `k` carries `v`. */
  lemma LookupIsLastEntry(entries: Entries, k: string, v: FormValue)
    ensures (k in FromEntries(entries) && FromEntries(entries)[k] == v)
        <==> exists i :: 0 <= i < |entries| && entries[i] == (k, v) && LastFor(entries, i)
  {
    if k in FromEntries(entries) {
      var i := LastIndexOf(entries, k);
      LastEntryWins(entries, i);
    }
    forall i | 0 <= i < |entries| && entries[i] == (k, v) && LastFor(entries, i)
      ensures k in FromEntries(entries) && FromEntries(entries)[k] == v
    {
      LastEntryWins(entries, i);
    }
  }

  /** Entries appended under other keys leave the property under `k` as it was. */
  lemma {:induction false} AppendOtherKeys(entries: Entries, extra: Entries, k: string)
    requires forall i :: 0 <= i < |extra| ==> extra[i].0 != k
    ensures (k in FromEntries(entries + extra)) == (k in FromEntries(entries))
    ensures k in FromEntries(entries) ==> FromEntries(entries + extra)[k] == FromEntries(entries)[k]
  {
    if |extra| == 0 {
      assert entries + extra == entries;
    } else {
      var n := |extra| - 1;
      AppendOtherKeys(entries, extra[..n], k);
      assert (entries + extra)[..|entries + extra| - 1] == entries + extra[..n];
    }
  }
}
