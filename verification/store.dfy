/** The alert record store (`AlertMessagesService`) over an in-memory table. The database
    generates record ids (here: a counter in the store) and creation times (here: a
    parameter).
 */
module AlertStore {
  import Wrappers

  datatype AlertStatus = Success | Error

  datatype AlertMessage = AlertMessage(
    id: nat, shopId: string, alertType: string, message: string,
    status: AlertStatus, createdAt: int)

  /** The table in insertion order, and the next id the database hands out. */
  datatype Store = Store(rows: seq<AlertMessage>, nextId: nat)

  datatype StoreError = RecordNotFound(id: nat)

  /** Ids are unique and all below the next id. */
  predicate Valid(st: Store) {
    && (forall i :: 0 <= i < |st.rows| ==> st.rows[i].id < st.nextId)
    && (forall i, j :: 0 <= i < j < |st.rows| ==> st.rows[i].id != st.rows[j].id)
  }

  /** `createAlert({shopId, alertType, message})` at time `now`: appends exactly one record,
      with a fresh id, the given fields and status Success; nothing else changes. */
  function CreateAlert(st: Store, shopId: string, alertType: string, message: string, now: int)
    : (r: (Store, AlertMessage))
    requires Valid(st)
    ensures Valid(r.0)
    ensures r.0.rows == st.rows + [r.1]
    ensures r.1.shopId == shopId && r.1.alertType == alertType && r.1.message == message
    ensures r.1.status == Success && r.1.createdAt == now
    ensures forall i :: 0 <= i < |st.rows| ==> st.rows[i].id != r.1.id
  {
    var rec := AlertMessage(st.nextId, shopId, alertType, message, Success, now);
    (Store(st.rows + [rec], st.nextId + 1), rec)
  }

  function Ids(rows: seq<AlertMessage>): (ids: seq<nat>)
    ensures |ids| == |rows| && forall i :: 0 <= i < |rows| ==> ids[i] == rows[i].id
  {
    if |rows| == 0 then [] else [rows[0].id] + Ids(rows[1..])
  }

  /** The position of the first row with the given id. */
  function IndexOf(ids: seq<nat>, id: nat): (r: Wrappers.Option<nat>)
    ensures r.None? <==> id !in ids
    ensures r.Some? ==> r.value < |ids| && ids[r.value] == id
  {
    if |ids| == 0 then Wrappers.None
    else if ids[0] == id then Wrappers.Some(0)
    else match IndexOf(ids[1..], id)
      case None => Wrappers.None
      case Some(k) => Wrappers.Some(k + 1)
  }

  /** The rows with the status of every row with id `id` replaced. */
  function SetStatus(rows: seq<AlertMessage>, id: nat, status: AlertStatus): (r: seq<AlertMessage>)
    ensures |r| == |rows|
    ensures forall i :: 0 <= i < |rows| ==>
              r[i] == if rows[i].id == id then rows[i].(status := status) else rows[i]
  {
    if |rows| == 0 then []
    else [if rows[0].id == id then rows[0].(status := status) else rows[0]] + SetStatus(rows[1..], id, status)
  }

  /** `updateAlertStatus(id, status)`: RecordNotFound when no row has the id; otherwise only
      that row's status changes, every other field and row stays as it was, and the updated
      record is returned. */
  function UpdateAlertStatus(st: Store, id: nat, status: AlertStatus)
    : (r: Wrappers.Result<(Store, AlertMessage), StoreError>)
    requires Valid(st)
    ensures r.Failure? <==> forall i :: 0 <= i < |st.rows| ==> st.rows[i].id != id
    ensures r.Failure? ==> r.error == RecordNotFound(id)
    ensures r.Success? ==>
              && Valid(r.value.0)
              && r.value.0.nextId == st.nextId
              && |r.value.0.rows| == |st.rows|
              && (forall i :: 0 <= i < |st.rows| && st.rows[i].id != id ==> r.value.0.rows[i] == st.rows[i])
              && (forall i :: 0 <= i < |st.rows| && st.rows[i].id == id ==>
                    r.value.0.rows[i] == st.rows[i].(status := status) && r.value.1 == r.value.0.rows[i])
  {
    match IndexOf(Ids(st.rows), id)
    case None => Wrappers.Failure(RecordNotFound(id))
    case Some(k) =>
      var rows := SetStatus(st.rows, id, status);
      assert forall i :: 0 <= i < |rows| ==> rows[i].id == st.rows[i].id;
      Wrappers.Success((Store(rows, st.nextId), rows[k]))
  }

  /** Applying the same status update twice is the same as applying it once. */
  lemma UpdateIdempotent(st: Store, id: nat, status: AlertStatus)
    requires Valid(st)
    requires UpdateAlertStatus(st, id, status).Success?
    ensures UpdateAlertStatus(UpdateAlertStatus(st, id, status).value.0, id, status)
         == UpdateAlertStatus(st, id, status)
  {
    var once := UpdateAlertStatus(st, id, status).value.0;
    assert Ids(once.rows) == Ids(st.rows);
    assert SetStatus(once.rows, id, status) == once.rows;
  }

  /** `resendAlert(id)`: sets the status to Success whatever it was; creates no record and
      leaves the message and every other row untouched. */
  function ResendAlert(st: Store, id: nat): (r: Wrappers.Result<(Store, AlertMessage), StoreError>)
    requires Valid(st)
    ensures r.Failure? <==> forall i :: 0 <= i < |st.rows| ==> st.rows[i].id != id
    ensures r.Success? ==>
              && Valid(r.value.0)
              && r.value.0.nextId == st.nextId
              && |r.value.0.rows| == |st.rows|
              && r.value.1.status == Success
              && (forall i :: 0 <= i < |st.rows| && st.rows[i].id != id ==> r.value.0.rows[i] == st.rows[i])
              && (forall i :: 0 <= i < |st.rows| && st.rows[i].id == id ==>
                    r.value.0.rows[i] == st.rows[i].(status := Success) && r.value.1 == r.value.0.rows[i])
  {
    UpdateAlertStatus(st, id, Success)
  }

  /** Newest first: creation times never increase along the list. */
  predicate NewestFirst(s: seq<AlertMessage>) {
    forall i, j :: 0 <= i < j < |s| ==> s[i].createdAt >= s[j].createdAt
  }

  /** The rows of one shop, in table order. */
  function ShopRows(rows: seq<AlertMessage>, shopId: string): (r: seq<AlertMessage>)
    ensures forall m :: m in r <==> m in rows && m.shopId == shopId
    ensures forall m :: multiset(r)[m] == if m.shopId == shopId then multiset(rows)[m] else 0
  {
    if |rows| == 0 then []
    else
      assert rows == [rows[0]] + rows[1..];
      (if rows[0].shopId == shopId then [rows[0]] else []) + ShopRows(rows[1..], shopId)
  }

  function Insert(x: AlertMessage, s: seq<AlertMessage>): (r: seq<AlertMessage>)
    requires NewestFirst(s)
    ensures NewestFirst(r)
    ensures multiset(r) == multiset(s) + multiset{x}
  {
    if |s| == 0 then [x]
    else if x.createdAt >= s[0].createdAt then [x] + s
    else
      assert s == [s[0]] + s[1..];
      var tail := Insert(x, s[1..]);
      NotNewerThanHead(x, s, tail);
      [s[0]] + tail
  }

  /** Every element of the insertion into the tail is no newer than the head. */
  lemma NotNewerThanHead(x: AlertMessage, s: seq<AlertMessage>, tail: seq<AlertMessage>)
    requires |s| > 0 && NewestFirst(s) && NewestFirst(tail)
    requires x.createdAt < s[0].createdAt
    requires multiset(tail) == multiset(s[1..]) + multiset{x}
    ensures NewestFirst([s[0]] + tail)
  {
    var r := [s[0]] + tail;
    forall j | 1 <= j < |r|
      ensures r[0].createdAt >= r[j].createdAt
    {
      assert r[j] == tail[j - 1];
      assert r[j] in multiset(tail);
      if r[j] != x {
        assert r[j] in multiset(s[1..]);
        var k :| 0 <= k < |s[1..]| && s[1..][k] == r[j];
        assert s[k + 1] == r[j];
      }
    }
    forall i, j | 0 <= i < j < |r|
      ensures r[i].createdAt >= r[j].createdAt
    {
      if i > 0 {
        assert r[i] == tail[i - 1] && r[j] == tail[j - 1];
      }
    }
  }

  function SortNewestFirst(s: seq<AlertMessage>): (r: seq<AlertMessage>)
    ensures NewestFirst(r)
    ensures multiset(r) == multiset(s)
  {
    if |s| == 0 then []
    else
      assert s == [s[0]] + s[1..];
      Insert(s[0], SortNewestFirst(s[1..]))
  }

  /** `getAlertMessages(shopId)`: exactly the records of that shop, each as often as it is
      stored, ordered by creation time, newest first. */
  function GetAlertMessages(st: Store, shopId: string): (r: seq<AlertMessage>)
    ensures forall m :: m in r <==> m in st.rows && m.shopId == shopId
    ensures multiset(r) == multiset(ShopRows(st.rows, shopId))
    ensures NewestFirst(r)
  {
    var mine := ShopRows(st.rows, shopId);
    var r := SortNewestFirst(mine);
    forall m
      ensures m in r <==> m in mine
    {
      assert m in r <==> m in multiset(r);
      assert m in mine <==> m in multiset(mine);
    }
    r
  }

  /** A new alert shows up in its shop's listing and in no other shop's. */
  lemma CreatedAlertIsListed(st: Store, shopId: string, alertType: string, message: string, now: int, other: string)
    requires Valid(st)
    ensures var (st', rec) := CreateAlert(st, shopId, alertType, message, now);
            rec in GetAlertMessages(st', shopId)
            && (other != shopId ==> GetAlertMessages(st', other) == GetAlertMessages(st, other))
  {
    var (st', rec) := CreateAlert(st, shopId, alertType, message, now);
    if other != shopId {
      ShopRowsAppendOther(st.rows, rec, other);
    }
  }

  lemma {:induction false} ShopRowsAppendOther(rows: seq<AlertMessage>, x: AlertMessage, shopId: string)
    requires x.shopId != shopId
    ensures ShopRows(rows + [x], shopId) == ShopRows(rows, shopId)
  {
    if |rows| == 0 {
      assert rows + [x] == [x];
      assert [x][1..] == [];
    } else {
      assert (rows + [x])[1..] == rows[1..] + [x];
      ShopRowsAppendOther(rows[1..], x, shopId);
    }
  }
}
