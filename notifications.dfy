/**
 * The notification feed of src/utils/notifications.js: a list in
 * localStorage, newest first, whose items may target a state and district.
 */
module Notifications {
  import opened Js
  import opened Seqs
  import opened Storage
  import opened Auth

  const NotificationsKey: string := "des_notifications"

  /** `getNotifications()`: the stored list, or `[]`. */
  function GetNotifications(items: map<string, Stored>): (r: Json)
    ensures NotificationsKey !in items || !items[NotificationsKey].Encoded? ==> r == Arr([])
    ensures StoredTruthy(items, NotificationsKey) ==> r == items[NotificationsKey].value
    ensures !StoredTruthy(items, NotificationsKey) ==> r == Arr([])
  {
    ReadOr(items, NotificationsKey, Arr([]))
  }

  /** The item `addNotification(n)` inserts: a generated `id` and `date`,
      then the fields of `n`. The id (from the clock and a random suffix) and
      the ISO date are parameters. */
  function NewItem(n: Option<Json>, id: string, date: string): map<string, Json> {
    Spread(map["id" := Str(id), "date" := Str(date)], n)
  }

  /** `addNotification(n)`: the new item goes first and is returned. Only an
      array has `unshift`. */
  method AddNotification(ls: LocalStorage, n: Option<Json>, id: string, date: string) returns (r: Result<Json>)
    modifies ls
    ensures var all := GetNotifications(old(ls.items));
      && (r.Ok? <==> all.Arr?)
      && (r.Err? ==> r.error == TypeError && ls.items == old(ls.items))
      && (r.Ok? ==>
            && r.value == Obj(NewItem(n, id, date))
            && ls.items == old(ls.items)[NotificationsKey := Encoded(Arr([r.value] + all.items))]
            && GetNotifications(ls.items) == Arr([r.value] + all.items))
  {
    var all := GetNotifications(ls.items);
    if !all.Arr? {
      return Err(TypeError);
    }
    var item := Obj(NewItem(n, id, date));
    var xs := [item] + all.items;
    ls.WriteJSON(NotificationsKey, Arr(xs));
    r := Ok(xs[0]);
  }

  /** Fields given in `n` win over the generated `id` and `date`; a missing
      `n` or one without those fields keeps the generated ones. */
  lemma NewItemFields(m: map<string, Json>, id: string, date: string)
    ensures forall k | k in m :: NewItem(Some(Obj(m)), id, date)[k] == m[k]
    ensures "id" !in m ==> NewItem(Some(Obj(m)), id, date)["id"] == Str(id)
    ensures "date" !in m ==> NewItem(Some(Obj(m)), id, date)["date"] == Str(date)
    ensures NewItem(None, id, date) == map["id" := Str(id), "date" := Str(date)]
  {
  }

  // ---------------------------------------------------------------------
  // The student feed

  /** The feed filter callback for session `s`. Reading the target of a
      null item throws; the session and a truthy target are never null. */
  function VisibleTest(s: Json, n: Json): Result<bool> {
    var t :- Prop(n, "target");
    if StrictEq(t, Some(Str("all"))) then Ok(true)
    else if !Truthy(t) then Ok(true)
    else
      var okState := !Truthy(Chain(t, "state")) || StrictEq(Chain(t, "state"), Chain(Some(s), "state"));
      var okDist := !Truthy(Chain(t, "district")) || StrictEq(Chain(t, "district"), Chain(Some(s), "district"));
      Ok(okState && okDist)
  }

  function VisibleTestOf(s: Json): Json -> Result<bool> {
    n => VisibleTest(s, n)
  }

  /** A target field is either unset or names the session's value. */
  predicate FieldAllows(target: Json, s: Json, k: string) {
    !Truthy(Chain(Some(target), k)) || StrictEq(Chain(Some(target), k), Chain(Some(s), k))
  }

  /** Who may see an item: no target, the target 'all', or a target whose
      state and district are each unset or equal to the session's. */
  predicate Visible(s: Json, n: Json) {
    && n != Null
    && var t := Chain(Some(n), "target");
       || t.None?
       || t == Some(Str("all"))
       || !Truthy(t)
       || (FieldAllows(t.value, s, "state") && FieldAllows(t.value, s, "district"))
  }

  function VisibleOf(s: Json): Json -> bool {
    n => Visible(s, n)
  }

  /** `getSession() || {}`. */
  function SessionOrEmpty(items: map<string, Stored>): Json {
    Or(Some(GetSession(items)), Obj(map[]))
  }

  /** `getStudentNotifications()`. */
  function GetStudentNotifications(items: map<string, Stored>): Result<seq<Json>> {
    var all := GetNotifications(items);
    if !all.Arr? then Err(TypeError)
    else FilterR(VisibleTestOf(SessionOrEmpty(items)), all.items)
  }

  /** The feed fails exactly on a non-array or a null item, and otherwise is
      the visible items in their stored order. */
  lemma GetStudentNotificationsSpec(items: map<string, Stored>)
    ensures var all := GetNotifications(items);
      GetStudentNotifications(items).Ok? <==> all.Arr? && forall i | 0 <= i < |all.items| :: all.items[i] != Null
    ensures GetStudentNotifications(items).Ok? ==>
      var all := GetNotifications(items).items;
      && GetStudentNotifications(items).value == Filter(VisibleOf(SessionOrEmpty(items)), all)
      && IsSubsequence(GetStudentNotifications(items).value, all)
  {
    var all := GetNotifications(items);
    if all.Arr? {
      var s := SessionOrEmpty(items);
      var xs := all.items;
      forall i | 0 <= i < |xs|
        ensures (VisibleOf(s)(xs[i]) <==> VisibleTestOf(s)(xs[i]) == Ok(true))
        ensures (VisibleTestOf(s)(xs[i]).Ok? <==> xs[i] != Null)
      {
      }
      FilterRSpec(VisibleTestOf(s), xs, VisibleOf(s));
      FilterSpec(VisibleOf(s), xs);
    }
  }

  /** Items for 'all', without a target, or whose target sets neither state
      nor district reach every session; a target object otherwise reaches
      exactly the sessions matching each field it sets. */
  lemma VisibleCases(s: Json, n: Json, t: Json)
    requires n.Obj? && Chain(Some(n), "target") == Some(t)
    ensures t == Str("all") ==> Visible(s, n)
    ensures !Truthy(Some(t)) ==> Visible(s, n)
    ensures t.Obj? && "state" !in t.fields && "district" !in t.fields ==> Visible(s, n)
    ensures t.Obj? ==>
      (Visible(s, n) <==>
         && (!Truthy(Chain(Some(t), "state")) || StrictEq(Chain(Some(t), "state"), Chain(Some(s), "state")))
         && (!Truthy(Chain(Some(t), "district")) || StrictEq(Chain(Some(t), "district"), Chain(Some(s), "district"))))
  {
  }
}
