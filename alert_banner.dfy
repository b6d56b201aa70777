/**
 * The loading effect of src/components/AlertBanner.jsx: the alerts of the
 * signed-in user's region are shown, and each one whose id was not seen
 * before triggers one browser notification and is then recorded as seen.
 */
module AlertBanner {
  import opened Js
  import opened Seqs
  import opened Storage
  import opened Auth
  import opened Alerts

  /** `Notification.permission`. */
  datatype Permission = Granted | Denied | Default

  /** The browser's notification facility: the permission, how many times
      permission was requested, and the alerts a notification was shown for.
      The answers the user gives to successive requests are a parameter. */
  class NotificationApi {
    var permission: Permission
    var requests: nat
    var shown: seq<Json>

    constructor (p: Permission)
      ensures permission == p && requests == 0 && shown == []
    {
      permission, requests, shown := p, 0, [];
    }

    /** One notification attempt: shown at once when granted, never when
        denied, and otherwise after asking, if the answer grants it. */
    method Notify(a: Json, answers: nat -> Permission)
      modifies this
      ensures old(permission) == Granted ==>
        permission == Granted && requests == old(requests) && shown == old(shown) + [a]
      ensures old(permission) == Denied ==>
        permission == Denied && requests == old(requests) && shown == old(shown)
      ensures old(permission) == Default ==>
        && requests == old(requests) + 1
        && permission == answers(old(requests))
        && shown == old(shown) + (if permission == Granted then [a] else [])
    {
      if permission == Granted {
        shown := shown + [a];
      } else if permission != Denied {
        var perm := answers(requests);
        requests := requests + 1;
        permission := perm;
        if perm == Granted {
          shown := shown + [a];
        }
      }
    }
  }

  /** The state of the notification facility: the permission, the number
      of requests made, and the alerts shown. */
  datatype Notified = Notified(permission: Permission, requests: nat, shown: seq<Json>)

  /** One `Notify`: shown when granted, nothing when denied, and otherwise
      one request whose answer becomes the permission, showing the alert
      if it grants. */
  function NotifyStep(n: Notified, a: Json, answers: nat -> Permission): Notified {
    match n.permission
    case Granted => n.(shown := n.shown + [a])
    case Denied => n
    case Default =>
      var p := answers(n.requests);
      Notified(p, n.requests + 1, n.shown + (if p == Granted then [a] else []))
  }

  /** `Notify` for each alert of `attempted`, in turn. */
  function NotifyAll(n: Notified, attempted: seq<Json>, answers: nat -> Permission): Notified {
    if attempted == [] then n
    else NotifyStep(NotifyAll(n, attempted[..|attempted| - 1], answers), attempted[|attempted| - 1], answers)
  }

  /** A granted permission shows every attempted alert, with no request. */
  lemma {:induction false} NotifyAllGranted(r: nat, shown: seq<Json>, attempted: seq<Json>, answers: nat -> Permission)
    ensures NotifyAll(Notified(Granted, r, shown), attempted, answers) == Notified(Granted, r, shown + attempted)
  {
    if attempted != [] {
      var init := attempted[..|attempted| - 1];
      NotifyAllGranted(r, shown, init, answers);
      assert attempted == init + [attempted[|attempted| - 1]];
    }
  }

  /** A denied permission shows nothing and asks nothing. */
  lemma {:induction false} NotifyAllDenied(r: nat, shown: seq<Json>, attempted: seq<Json>, answers: nat -> Permission)
    ensures NotifyAll(Notified(Denied, r, shown), attempted, answers) == Notified(Denied, r, shown)
  {
    if attempted != [] {
      NotifyAllDenied(r, shown, attempted[..|attempted| - 1], answers);
    }
  }

  /** On a first visit (permission default), the first attempted alert
      asks; a grant shows it and every later one with no further request,
      and a denial shows none of them. */
  lemma {:induction false} FirstAnswerDecides(r: nat, shown: seq<Json>, attempted: seq<Json>, answers: nat -> Permission)
    requires attempted != [] && answers(r) != Default
    ensures NotifyAll(Notified(Default, r, shown), attempted, answers) ==
      if answers(r) == Granted then Notified(Granted, r + 1, shown + attempted) else Notified(Denied, r + 1, shown)
  {
    var init := attempted[..|attempted| - 1];
    var a := attempted[|attempted| - 1];
    var n := Notified(Default, r, shown);
    var p := answers(r);
    if init == [] {
      assert NotifyAll(n, attempted, answers) == NotifyStep(n, a, answers);
      assert attempted == [a];
    } else {
      FirstAnswerDecides(r, shown, init, answers);
      var m := NotifyAll(n, init, answers);
      assert m.permission == p && m.requests == r + 1;
      assert NotifyAll(n, attempted, answers) == NotifyStep(m, a, answers);
      if p == Granted {
        assert shown + init + [a] == shown + attempted;
      }
    }
  }

  /** While every request is dismissed (answered default), each attempted
      alert asks once more and none is shown. */
  lemma {:induction false} DismissedAsksEachTime(r: nat, shown: seq<Json>, attempted: seq<Json>, answers: nat -> Permission)
    requires forall j | r <= j < r + |attempted| :: answers(j) == Default
    ensures NotifyAll(Notified(Default, r, shown), attempted, answers) == Notified(Default, r + |attempted|, shown)
  {
    if attempted != [] {
      DismissedAsksEachTime(r, shown, attempted[..|attempted| - 1], answers);
    }
  }

  /** An alert's id, undefined when it has none. */
  function IdOf(a: Json): Option<Json> {
    Chain(Some(a), "id")
  }

  /** The ids already seen, as the `Set` built before the loop. */
  function Snapshot(items: map<string, Stored>): seq<Option<Json>>
    requires Iterate(GetSeenAlertIds(items)).Ok?
  {
    SetOf(Defined(Iterate(GetSeenAlertIds(items)).value))
  }

  function UnseenOf(snapshot: seq<Option<Json>>): Json -> bool {
    a => !HasSame(snapshot, IdOf(a))
  }

  /** The region of the session: `findRegionAlerts(all, session.state,
      session.district)` with `session = getSession() || {}`. */
  function RegionOf(items: map<string, Stored>, all: Json): Result<seq<Json>> {
    var session := Or(Some(GetSession(items)), Obj(map[]));
    FindRegionAlerts(all, Chain(Some(session), "state"), Chain(Some(session), "district"))
  }

  /** The ids the stored seen list holds (none unless it is an array). */
  function SeenIds(items: map<string, Stored>): seq<Json> {
    var v := GetSeenAlertIds(items);
    if v.Arr? then v.items else []
  }

  /** One `addSeenAlertId` keeps every recorded id and records the new one. */
  lemma AddRecordsAndKeeps(items: map<string, Stored>, id: Option<Json>, list: seq<Json>)
    requires SeenListAfter(GetSeenAlertIds(items), id) == Ok(list)
    ensures SeenIds(items[SeenKey := Encoded(Arr(list))]) == list
    ensures StoredForm(id) in list
    ensures forall y | y in SeenIds(items) :: y in list
  {
    SeenAddRecords(GetSeenAlertIds(items), id);
    forall y | y in SeenIds(items)
      ensures y in list
    {
      SeenAddKeepsMembers(GetSeenAlertIds(items).items, id, y);
    }
  }

  /** The body of the loop for an unseen alert: one notification attempt,
      then its id is recorded. */
  method Attempt(ls: LocalStorage, api: NotificationApi, a: Json, answers: nat -> Permission)
    requires Iterate(GetSeenAlertIds(ls.items)).Ok?
    modifies ls, api
    ensures ls.items == RecordOne(old(ls.items), a)
    ensures api.shown == old(api.shown) || api.shown == old(api.shown) + [a]
    ensures old(api.permission) == Granted ==> api.permission == Granted && api.shown == old(api.shown) + [a]
    ensures old(api.permission) == Denied ==>
      api.permission == Denied && api.shown == old(api.shown) && api.requests == old(api.requests)
    ensures Notified(api.permission, api.requests, api.shown) ==
      NotifyStep(Notified(old(api.permission), old(api.requests), old(api.shown)), a, answers)
  {
    api.Notify(a, answers);
    var _ := AddSeenAlertId(ls, IdOf(a));
  }

  /** Storage after `addSeenAlertId(a.id)`; a seen list that cannot be
      read leaves it as it was. */
  function RecordOne(items: map<string, Stored>, a: Json): map<string, Stored> {
    var after := SeenListAfter(GetSeenAlertIds(items), IdOf(a));
    if after.Ok? then items[SeenKey := Encoded(Arr(after.value))] else items
  }

  /** Storage after recording the ids of `attempted`, one by one in order. */
  function Recorded(items: map<string, Stored>, attempted: seq<Json>): map<string, Stored> {
    if attempted == [] then items
    else RecordOne(Recorded(items, attempted[..|attempted| - 1]), attempted[|attempted| - 1])
  }

  /** Recording changes no key but the seen list. */
  lemma {:induction false} RecordedKeepsOtherKeys(items: map<string, Stored>, attempted: seq<Json>, k: string)
    requires k != SeenKey
    ensures k in Recorded(items, attempted) <==> k in items
    ensures k in items ==> Recorded(items, attempted)[k] == items[k]
  {
    if attempted != [] {
      RecordedKeepsOtherKeys(items, attempted[..|attempted| - 1], k);
    }
  }

  /** Every attempted alert's id is recorded in the stored seen list. */
  predicate AllRecorded(items: map<string, Stored>, attempted: seq<Json>) {
    forall a | a in attempted :: StoredForm(IdOf(a)) in SeenIds(items)
  }

  /** The notifications shown since `shown0` are all of attempted alerts. */
  predicate ShownSince(shown0: seq<Json>, shown: seq<Json>, attempted: seq<Json>) {
    shown0 <= shown && forall a | a in shown[|shown0|..] :: a in attempted
  }

  /** One recording keeps the seen list iterable, records the alert's id
      and keeps every earlier id. */
  lemma RecordOneSpec(items: map<string, Stored>, a: Json)
    requires Iterate(GetSeenAlertIds(items)).Ok?
    ensures Iterate(GetSeenAlertIds(RecordOne(items, a))).Ok?
    ensures StoredForm(IdOf(a)) in SeenIds(RecordOne(items, a))
    ensures forall y | y in SeenIds(items) :: y in SeenIds(RecordOne(items, a))
  {
    AddRecordsAndKeeps(items, IdOf(a), SeenListAfter(GetSeenAlertIds(items), IdOf(a)).value);
  }

  /** Recording in turn keeps the seen list iterable, records every
      attempted id and keeps every id seen before. */
  lemma {:induction false} RecordedSpec(items: map<string, Stored>, attempted: seq<Json>)
    requires Iterate(GetSeenAlertIds(items)).Ok?
    ensures Iterate(GetSeenAlertIds(Recorded(items, attempted))).Ok?
    ensures AllRecorded(Recorded(items, attempted), attempted)
    ensures forall y | y in SeenIds(items) :: y in SeenIds(Recorded(items, attempted))
  {
    if attempted != [] {
      var init := attempted[..|attempted| - 1];
      var a := attempted[|attempted| - 1];
      RecordedSpec(items, init);
      RecordOneSpec(Recorded(items, init), a);
      assert attempted == init + [a];
    }
  }

  /** One loop step shows at most the attempted alert. */
  lemma StepShown(shown0: seq<Json>, shown: seq<Json>, shown': seq<Json>, attempted: seq<Json>, a: Json)
    requires ShownSince(shown0, shown, attempted)
    requires shown' == shown || shown' == shown + [a]
    ensures ShownSince(shown0, shown', attempted + [a])
  {
    assert shown'[|shown0|..] == shown[|shown0|..] || shown'[|shown0|..] == shown[|shown0|..] + [a];
  }

  /** What the loop keeps, from the state (`items0`, `perm0`, `shown0`,
      `req0`) it started in: storage holds the ids recorded so far; the
      notification state is that of `Notify` for each attempted alert in
      turn; only attempted alerts are shown; a granted permission shows
      them all, a denied one shows none and asks nothing. */
  predicate LoopKept(hasApi: bool, items0: map<string, Stored>, items: map<string, Stored>,
                     perm0: Permission, perm: Permission, shown0: seq<Json>, shown: seq<Json>,
                     req0: nat, req: nat, attempted: seq<Json>, answers: nat -> Permission)
  {
    && items == Recorded(items0, attempted)
    && Notified(perm, req, shown) == NotifyAll(Notified(perm0, req0, shown0), attempted, answers)
    && ShownSince(shown0, shown, attempted)
    && (perm0 == Granted ==> perm == Granted && shown == shown0 + attempted)
    && (perm0 == Denied ==> perm == Denied && shown == shown0 && req == req0)
  }

  /** The body of the loop: an alert unseen in the snapshot is attempted
      when the API exists; any other alert changes nothing. */
  method Visit(ls: LocalStorage, api: NotificationApi, a: Json, snapshot: seq<Option<Json>>, hasApi: bool,
               answers: nat -> Permission, ghost items0: map<string, Stored>, ghost perm0: Permission,
               ghost shown0: seq<Json>, ghost req0: nat, ghost attempted: seq<Json>)
    returns (took: bool)
    requires Iterate(GetSeenAlertIds(items0)).Ok?
    requires LoopKept(hasApi, items0, ls.items, perm0, api.permission, shown0, api.shown, req0, api.requests, attempted, answers)
    modifies ls, api
    ensures took == (hasApi && UnseenOf(snapshot)(a))
    ensures LoopKept(hasApi, items0, ls.items, perm0, api.permission, shown0, api.shown, req0, api.requests,
                     attempted + (if took then [a] else []), answers)
  {
    took := hasApi && !HasSame(snapshot, IdOf(a));
    if took {
      ghost var shown := api.shown;
      RecordedSpec(items0, attempted);
      Attempt(ls, api, a, answers);
      StepShown(shown0, shown, api.shown, attempted, a);
      assert (attempted + [a])[..|attempted|] == attempted;
    } else {
      assert attempted + [] == attempted;
    }
  }

  /** The loop over the region alerts, from the state (`items0`, `perm0`,
      `shown0`, `req0`) it starts in. */
  method VisitAll(ls: LocalStorage, api: NotificationApi, xs: seq<Json>, snapshot: seq<Option<Json>>,
                  hasApi: bool, answers: nat -> Permission, ghost items0: map<string, Stored>,
                  ghost perm0: Permission, ghost shown0: seq<Json>, ghost req0: nat)
    returns (attempted: seq<Json>)
    requires Iterate(GetSeenAlertIds(items0)).Ok?
    requires LoopKept(hasApi, items0, ls.items, perm0, api.permission, shown0, api.shown, req0, api.requests, [], answers)
    modifies ls, api
    ensures attempted == (if hasApi then Filter(UnseenOf(snapshot), xs) else [])
    ensures LoopKept(hasApi, items0, ls.items, perm0, api.permission, shown0, api.shown, req0, api.requests, attempted, answers)
  {
    attempted := [];
    ghost var p := UnseenOf(snapshot);
    var i := 0;
    while i < |xs|
      invariant 0 <= i <= |xs|
      invariant attempted == (if hasApi then Filter(p, xs[..i]) else [])
      invariant LoopKept(hasApi, items0, ls.items, perm0, api.permission, shown0, api.shown, req0, api.requests, attempted, answers)
    {
      var a := xs[i];
      FilterSnoc(p, xs[..i], a);
      assert xs[..i + 1] == xs[..i] + [a];
      var took := Visit(ls, api, a, snapshot, hasApi, answers, items0, perm0, shown0, req0, attempted);
      if took {
        attempted := attempted + [a];
      }
      i := i + 1;
    }
    assert xs[..i] == xs;
  }

  /** The notification loop of the effect, against the snapshot. Recording
      an id cannot throw here: the snapshot was read from the same stored
      value, and every later value is an array. */
  method NotifyUnseen(ls: LocalStorage, api: NotificationApi, xs: seq<Json>, snapshot: seq<Option<Json>>,
                      hasApi: bool, answers: nat -> Permission)
    returns (attempted: seq<Json>)
    requires Iterate(GetSeenAlertIds(ls.items)).Ok?
    modifies ls, api
    ensures attempted == (if hasApi then Filter(UnseenOf(snapshot), xs) else [])
    ensures ls.items == Recorded(old(ls.items), attempted)
    ensures forall a | a in attempted :: StoredForm(IdOf(a)) in SeenIds(ls.items)
    ensures old(api.shown) <= api.shown && forall a | a in api.shown[|old(api.shown)|..] :: a in attempted
    ensures old(api.permission) == Granted ==> api.shown == old(api.shown) + attempted
    ensures old(api.permission) == Denied ==> api.shown == old(api.shown) && api.requests == old(api.requests)
    ensures Notified(api.permission, api.requests, api.shown) ==
      NotifyAll(Notified(old(api.permission), old(api.requests), old(api.shown)), attempted, answers)
  {
    ghost var items0 := ls.items;
    assert api.shown[|api.shown|..] == [];
    attempted := VisitAll(ls, api, xs, snapshot, hasApi, answers, items0, api.permission, api.shown, api.requests);
    RecordedSpec(items0, attempted);
  }

  /** The alert list was fetched and parsed, and the region filter did not
      throw: the alerts and the tips are then set. */
  predicate Regional(items: map<string, Stored>, alertsRes: Fetch) {
    alertsRes.Responded? && alertsRes.json.Some? && RegionOf(items, alertsRes.json.value).Ok?
  }

  /** The loading effect completes: the alert list was fetched and parsed,
      the region filter did not throw, and (when there are region alerts)
      the seen list could be read into a `Set`. */
  predicate Completes(items: map<string, Stored>, alertsRes: Fetch) {
    && Regional(items, alertsRes)
    && (RegionOf(items, alertsRes.json.value).value == [] || Iterate(GetSeenAlertIds(items)).Ok?)
  }

  class Banner {
    var alerts: seq<Json>
    var tips: map<string, Json>

    constructor ()
      ensures alerts == [] && tips == map[]
    {
      alerts, tips := [], map[];
    }

    /** The effect. Any throw sets the alerts to `[]`, which renders
        nothing. Otherwise the region alerts are shown; when the Notification
        API exists, each alert whose id is absent from the snapshot taken
        before the loop gets one notification attempt and its id recorded,
        whatever the permission. The snapshot is not refreshed, so alerts
        repeating an unseen id are each attempted. */
    method Load(ls: LocalStorage, alertsRes: Fetch, tipsRes: Fetch, hasApi: bool,
                api: NotificationApi, answers: nat -> Permission)
      returns (attempted: seq<Json>)
      modifies this, ls, api
      ensures !Completes(old(ls.items), alertsRes) ==>
        alerts == [] && attempted == [] && ls.items == old(ls.items) && unchanged(api)
      ensures Regional(old(ls.items), alertsRes) ==> tips == DisasterTips(tipsRes)
      ensures !Regional(old(ls.items), alertsRes) ==> tips == old(tips)
      ensures Completes(old(ls.items), alertsRes) ==>
        var region := RegionOf(old(ls.items), alertsRes.json.value).value;
        && alerts == region
        && tips == DisasterTips(tipsRes)
        && (region == [] ==> attempted == [] && ls.items == old(ls.items))
        && (region != [] ==>
              && attempted == (if hasApi then Filter(UnseenOf(Snapshot(old(ls.items))), region) else [])
              && ls.items == Recorded(old(ls.items), attempted))
      ensures forall a | a in attempted :: StoredForm(IdOf(a)) in SeenIds(ls.items)
      ensures old(api.shown) <= api.shown && forall a | a in api.shown[|old(api.shown)|..] :: a in attempted
      ensures old(api.permission) == Granted ==> api.shown == old(api.shown) + attempted
      ensures old(api.permission) == Denied ==> api.shown == old(api.shown) && api.requests == old(api.requests)
      ensures Notified(api.permission, api.requests, api.shown) ==
        NotifyAll(Notified(old(api.permission), old(api.requests), old(api.shown)), attempted, answers)
    {
      attempted := [];
      if alertsRes.NetworkDown? || alertsRes.json.None? {
        alerts := [];
        return;
      }
      var region := RegionOf(ls.items, alertsRes.json.value);
      if region.Err? {
        alerts := [];
        return;
      }
      var xs := region.value;
      alerts := xs;
      tips := LoadDisasterTips(tipsRes);
      if xs == [] {
        return;
      }
      var seen := Iterate(GetSeenAlertIds(ls.items));
      if seen.Err? {
        alerts := [];
        return;
      }
      var snapshot := SetOf(Defined(seen.value));
      attempted := NotifyUnseen(ls, api, xs, snapshot, hasApi, answers);
    }
  }

  /** Two region alerts with the same unseen id are both attempted. */
  lemma RepeatedUnseenIdAttemptedTwice(a: Json, b: Json, snapshot: seq<Option<Json>>)
    requires IdOf(a) == IdOf(b) && !HasSame(snapshot, IdOf(a))
    ensures Filter(UnseenOf(snapshot), [a, b]) == [a, b]
  {
    assert [a, b][1..] == [b];
    assert Filter(UnseenOf(snapshot), [b]) == [b] + Filter(UnseenOf(snapshot), []);
  }
}
