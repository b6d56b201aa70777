/**
 * The alert helpers of src/utils/alerts.js: the region filter, the list of
 * alert ids already notified (kept in localStorage under
 * `des_seen_alert_ids`), and the map from disaster id to safety tips.
 */
module Alerts {
  import opened Js
  import opened Seqs
  import opened Storage

  const SeenKey: string := "des_seen_alert_ids"

  // ---------------------------------------------------------------------
  // Region filter

  /** The filter callback `a.state === state && (!district || a.district ===
      district)`; reading a field of a null alert throws. */
  function RegionTest(state: Option<Json>, district: Option<Json>, a: Json): Result<bool> {
    var s :- Prop(a, "state");
    if !StrictEq(s, state) then Ok(false)
    else if !Truthy(district) then Ok(true)
    else
      var d :- Prop(a, "district");
      Ok(StrictEq(d, district))
  }

  function RegionTestOf(state: Option<Json>, district: Option<Json>): Json -> Result<bool> {
    a => RegionTest(state, district, a)
  }

  /** An alert of the region: the same state and, when a district is given,
      the same district. */
  predicate InRegion(state: Option<Json>, district: Option<Json>, a: Json) {
    && a != Null
    && StrictEq(Chain(Some(a), "state"), state)
    && (!Truthy(district) || StrictEq(Chain(Some(a), "district"), district))
  }

  function InRegionOf(state: Option<Json>, district: Option<Json>): Json -> bool {
    a => InRegion(state, district, a)
  }

  /** `findRegionAlerts(alerts, state, district)`. Only an array has
      `filter`. */
  function FindRegionAlerts(alerts: Json, state: Option<Json>, district: Option<Json>): Result<seq<Json>> {
    if !Truthy(state) then Ok([])
    else if !alerts.Arr? then Err(TypeError)
    else FilterR(RegionTestOf(state, district), alerts.items)
  }

  /** Without a state nothing is kept. Otherwise the call fails exactly on a
      non-array or a null alert, and keeps, in order, exactly the alerts of
      the region. */
  lemma FindRegionAlertsSpec(alerts: Json, state: Option<Json>, district: Option<Json>)
    ensures !Truthy(state) ==> FindRegionAlerts(alerts, state, district) == Ok([])
    ensures Truthy(state) ==>
      (FindRegionAlerts(alerts, state, district).Ok? <==>
         alerts.Arr? && forall i | 0 <= i < |alerts.items| :: alerts.items[i] != Null)
    ensures Truthy(state) && FindRegionAlerts(alerts, state, district).Ok? ==>
      && FindRegionAlerts(alerts, state, district).value == Filter(InRegionOf(state, district), alerts.items)
      && IsSubsequence(FindRegionAlerts(alerts, state, district).value, alerts.items)
  {
    if Truthy(state) && alerts.Arr? {
      var xs := alerts.items;
      forall i | 0 <= i < |xs|
        ensures (InRegionOf(state, district)(xs[i]) <==> RegionTestOf(state, district)(xs[i]) == Ok(true))
        ensures (RegionTestOf(state, district)(xs[i]).Ok? <==> xs[i] != Null)
      {
      }
      FilterRSpec(RegionTestOf(state, district), xs, InRegionOf(state, district));
      FilterSpec(InRegionOf(state, district), xs);
    }
  }

  // ---------------------------------------------------------------------
  // Seen alert ids

  /** `getSeenAlertIds()`: the stored value, or `[]` when it is missing,
      unreadable or falsy. */
  function GetSeenAlertIds(items: map<string, Stored>): (r: Json)
    ensures SeenKey !in items || !items[SeenKey].Encoded? ==> r == Arr([])
    ensures SeenKey in items && items[SeenKey].Encoded? && Truthy(Some(items[SeenKey].value)) ==>
      r == items[SeenKey].value
  {
    ReadOr(items, SeenKey, Arr([]))
  }

  /** A `Set` holds an element the same (SameValueZero) as `x`. */
  predicate HasSame(xs: seq<Option<Json>>, x: Option<Json>) {
    exists i | 0 <= i < |xs| :: StrictEq(xs[i], x)
  }

  /** `set.add(x)`: a `Set` keeps insertion order and ignores an element it
      already holds. */
  function SetAdd(xs: seq<Option<Json>>, x: Option<Json>): seq<Option<Json>> {
    if HasSame(xs, x) then xs else xs + [x]
  }

  /** `new Set(xs)`: the elements added one by one. */
  function SetOf(xs: seq<Option<Json>>): seq<Option<Json>> {
    if xs == [] then [] else SetAdd(SetOf(xs[..|xs| - 1]), xs[|xs| - 1])
  }

  /** No two elements are the same. */
  predicate Distinct(xs: seq<Option<Json>>) {
    forall i, j | 0 <= i < j < |xs| :: !StrictEq(xs[i], xs[j])
  }

  function Defined(xs: seq<Json>): (r: seq<Option<Json>>)
    ensures |r| == |xs| && forall i | 0 <= i < |xs| :: r[i] == Some(xs[i])
  {
    seq(|xs|, i requires 0 <= i < |xs| => Some(xs[i]))
  }

  /** `JSON.stringify` of an array element: undefined is written as null. */
  function StoredForm(x: Option<Json>): Json {
    if x.None? then Null else x.value
  }

  function Stringified(xs: seq<Option<Json>>): (r: seq<Json>)
    ensures |r| == |xs| && forall i | 0 <= i < |xs| :: r[i] == StoredForm(xs[i])
  {
    seq(|xs|, i requires 0 <= i < |xs| => StoredForm(xs[i]))
  }

  /** The list `addSeenAlertId(id)` writes: `new Set(seen)` throws unless
      the stored value is iterable. */
  function SeenListAfter(seen: Json, id: Option<Json>): Result<seq<Json>> {
    var xs :- Iterate(seen);
    Ok(Stringified(SetAdd(SetOf(Defined(xs)), id)))
  }

  /** `addSeenAlertId(id)`: read the list, add the id to a `Set` of it, and
      write the set back as an array. */
  method AddSeenAlertId(ls: LocalStorage, id: Option<Json>) returns (r: Result<()>)
    modifies ls
    ensures var after := SeenListAfter(GetSeenAlertIds(old(ls.items)), id);
      && (r.Ok? <==> after.Ok?)
      && (r.Ok? ==> ls.items == old(ls.items)[SeenKey := Encoded(Arr(after.value))])
      && (r.Err? ==> r.error == TypeError && ls.items == old(ls.items))
  {
    var it := Iterate(GetSeenAlertIds(ls.items));
    if it.Err? {
      return Err(TypeError);
    }
    var seen := SetOf(Defined(it.value));
    seen := SetAdd(seen, id);
    ls.WriteJSON(SeenKey, Arr(Stringified(seen)));
    r := Ok(());
  }

  lemma SetAddKeeps(xs: seq<Option<Json>>, x: Option<Json>)
    ensures xs <= SetAdd(xs, x)
    ensures x in SetAdd(xs, x) || HasSame(xs, x)
    ensures Distinct(xs) ==> Distinct(SetAdd(xs, x))
  {
  }

  /** A set holds no element twice. */
  lemma {:induction false} SetOfDistinct(xs: seq<Option<Json>>)
    ensures Distinct(SetOf(xs))
  {
    if xs != [] {
      SetOfDistinct(xs[..|xs| - 1]);
      SetAddKeeps(SetOf(xs[..|xs| - 1]), xs[|xs| - 1]);
    }
  }

  /** A set holds only elements of the list it was made from. */
  lemma {:induction false} SetOfFrom(xs: seq<Option<Json>>)
    ensures forall y | y in SetOf(xs) :: y in xs
  {
    if xs != [] {
      SetOfFrom(xs[..|xs| - 1]);
      forall y | y in SetOf(xs)
        ensures y in xs
      {
        if y != xs[|xs| - 1] {
          assert y in xs[..|xs| - 1];
        }
      }
    }
  }

  /** A list without repeats makes a set of the same elements in the same
      order. */
  lemma {:induction false} SetOfOfDistinct(xs: seq<Option<Json>>)
    requires Distinct(xs)
    ensures SetOf(xs) == xs
  {
    if xs != [] {
      var n := |xs| - 1;
      DistinctInit(xs);
      SetOfOfDistinct(xs[..n]);
      assert xs[..n] + [xs[n]] == xs;
    }
  }

  /** Without repeats, the last element is new to the rest, which has no
      repeats either. */
  lemma DistinctInit(xs: seq<Option<Json>>)
    requires xs != [] && Distinct(xs)
    ensures Distinct(xs[..|xs| - 1]) && !HasSame(xs[..|xs| - 1], xs[|xs| - 1])
  {
    var n := |xs| - 1;
    assert forall i | 0 <= i < n :: xs[..n][i] == xs[i];
  }

  /** The same element read back from the store is the same key of the set:
      `StrictEq` is equality where it holds. */
  lemma StrictEqIsEq(a: Option<Json>, b: Option<Json>)
    ensures StrictEq(a, b) ==> a == b
  {
  }

  /** After the call the id is in the stored list. */
  lemma SeenAddRecords(seen: Json, id: Option<Json>)
    ensures SeenListAfter(seen, id).Ok? <==> seen.Arr? || seen.Str?
    ensures SeenListAfter(seen, id).Ok? ==> StoredForm(id) in SeenListAfter(seen, id).value
  {
    if Iterate(seen).Ok? {
      var s := SetOf(Defined(Iterate(seen).value));
      SetAddKeeps(s, id);
      if HasSame(s, id) {
        var i :| 0 <= i < |s| && StrictEq(s[i], id);
        StrictEqIsEq(s[i], id);
        assert Stringified(SetAdd(s, id))[i] == StoredForm(id);
      } else {
        assert Stringified(SetAdd(s, id))[|s|] == StoredForm(id);
      }
    }
  }

  /** A set keeps every element of the list it was made from. */
  lemma {:induction false} SetOfKeeps(xs: seq<Option<Json>>)
    ensures forall y | y in xs :: y in SetOf(xs)
  {
    if xs != [] {
      var n := |xs| - 1;
      SetOfKeeps(xs[..n]);
      SetAddKeeps(SetOf(xs[..n]), xs[n]);
      forall y | y in xs
        ensures y in SetOf(xs)
      {
        if y == xs[n] {
          if HasSame(SetOf(xs[..n]), y) {
            var i :| 0 <= i < |SetOf(xs[..n])| && StrictEq(SetOf(xs[..n])[i], y);
            StrictEqIsEq(SetOf(xs[..n])[i], y);
          }
        } else {
          assert y in xs[..n];
        }
      }
    }
  }

  /** Ids already in the stored list are still there after a call. */
  lemma SeenAddKeepsMembers(xs: seq<Json>, id: Option<Json>, x: Json)
    requires x in xs
    ensures SeenListAfter(Arr(xs), id).Ok? && x in SeenListAfter(Arr(xs), id).value
  {
    var d := Defined(xs);
    var i :| 0 <= i < |xs| && xs[i] == x;
    assert d[i] == Some(x);
    SetOfKeeps(d);
    SetAddKeeps(SetOf(d), id);
    var t := SetAdd(SetOf(d), id);
    assert Some(x) in d;
    assert Some(x) in t;
    var j :| 0 <= j < |t| && t[j] == Some(x);
    assert Stringified(t)[j] == x;
  }

  /** A defined id leaves the stored list without two equal primitives
      (undefined is written as null, so only a defined id is covered). */
  lemma SeenAddNoDuplicates(seen: Json, id: Option<Json>)
    requires id.Some?
    ensures SeenListAfter(seen, id).Ok? ==>
      var l := SeenListAfter(seen, id).value;
      forall i, j | 0 <= i < j < |l| :: !StrictEq(Some(l[i]), Some(l[j]))
  {
    if Iterate(seen).Ok? {
      var s := SetOf(Defined(Iterate(seen).value));
      SetOfDistinct(Defined(Iterate(seen).value));
      SetAddKeeps(s, id);
      SetOfFrom(Defined(Iterate(seen).value));
      var t := SetAdd(s, id);
      assert forall i | 0 <= i < |t| :: t[i].Some? by {
        forall i | 0 <= i < |t|
          ensures t[i].Some?
        {
          assert t[i] in s || t[i] == id;
        }
      }
    }
  }

  /** Writing back a list read from the store gives the same list. */
  lemma StringifiedDefined(xs: seq<Json>)
    ensures Stringified(Defined(xs)) == xs
  {
  }

  /** Writing back a longer set keeps the writing of its prefix. */
  lemma StringifiedPrefix(d: seq<Option<Json>>, t: seq<Option<Json>>)
    requires d <= t
    ensures Stringified(t)[..|d|] == Stringified(d)
  {
    assert forall i | 0 <= i < |d| :: t[i] == d[i];
  }

  /** When the stored list has no repeats, the new list is the old one,
      unchanged and in order, followed by the id if it was not there. */
  lemma SeenAddKeepsOrder(xs: seq<Json>, id: Option<Json>)
    requires Distinct(Defined(xs))
    ensures SeenListAfter(Arr(xs), id).Ok?
    ensures var l := SeenListAfter(Arr(xs), id).value;
      && |l| >= |xs| && l[..|xs|] == xs
      && (HasSame(Defined(xs), id) ==> l == xs)
  {
    var d := Defined(xs);
    SetOfOfDistinct(d);
    var t := SetAdd(d, id);
    assert SeenListAfter(Arr(xs), id) == Ok(Stringified(t));
    SetAddKeeps(d, id);
    StringifiedPrefix(d, t);
    StringifiedDefined(xs);
  }

  /** Adding a primitive id a second time writes the same list again. */
  lemma SeenAddIdempotent(seen: Json, id: Option<Json>)
    requires id.Some? && IsPrimitive(id.value)
    requires SeenListAfter(seen, id).Ok?
    ensures SeenListAfter(Arr(SeenListAfter(seen, id).value), id) == SeenListAfter(seen, id)
  {
    var xs := Iterate(seen).value;
    var s := SetOf(Defined(xs));
    SetOfDistinct(Defined(xs));
    SetAddKeeps(s, id);
    SetOfFrom(Defined(xs));
    var t := SetAdd(s, id);
    assert forall i | 0 <= i < |t| :: t[i].Some? by {
      forall i | 0 <= i < |t|
        ensures t[i].Some?
      {
        assert t[i] in s || t[i] == id;
      }
    }
    assert id in t by {
      if HasSame(s, id) {
        var i :| 0 <= i < |s| && StrictEq(s[i], id);
        StrictEqIsEq(s[i], id);
      }
    }
    ReAddPresent(t, id);
  }

  /** Re-reading a set written by `addSeenAlertId` and adding a primitive
      it holds gives the same set. */
  lemma ReAddPresent(t: seq<Option<Json>>, id: Option<Json>)
    requires Distinct(t) && forall i | 0 <= i < |t| :: t[i].Some?
    requires id.Some? && IsPrimitive(id.value) && id in t
    ensures SeenListAfter(Arr(Stringified(t)), id) == Ok(Stringified(t))
  {
    var l := Stringified(t);
    assert Iterate(Arr(l)) == Ok(l);
    assert Defined(l) == t;
    SetOfOfDistinct(t);
    var k :| 0 <= k < |t| && t[k] == id;
    assert StrictEq(t[k], id);
    assert SetAdd(t, id) == t;
  }

  // ---------------------------------------------------------------------
  // Disaster tips

  /** The property key `map[d.id]` uses: `String(d.id)`. */
  function TipKey(d: Json): string
    requires d != Null
  {
    ToString(Prop(d, "id").value)
  }

  /** `d.tips || []`. */
  function TipsOf(d: Json): Json
    requires d != Null
  {
    Or(Prop(d, "tips").value, Arr([]))
  }

  predicate NoNull(xs: seq<Json>) {
    forall i | 0 <= i < |xs| :: xs[i] != Null
  }

  /** The map after assigning every disaster's tips in order. */
  function TipsMap(xs: seq<Json>): map<string, Json>
    requires NoNull(xs)
  {
    if xs == [] then map[]
    else TipsMap(xs[..|xs| - 1])[TipKey(xs[|xs| - 1]) := TipsOf(xs[|xs| - 1])]
  }

  /** What `loadDisasterTips` resolves to. The response status is not
      checked; a failed request, a body that does not parse, a list that is
      not iterable or a null entry all give `{}`. */
  function DisasterTips(res: Fetch): map<string, Json> {
    if res.NetworkDown? || res.json.None? then map[]
    else match Iterate(res.json.value)
      case Err(_) => map[]
      case Ok(xs) => if NoNull(xs) then TipsMap(xs) else map[]
  }

  /** `loadDisasterTips()`: the loop over the fetched list. */
  method LoadDisasterTips(res: Fetch) returns (tips: map<string, Json>)
    ensures tips == DisasterTips(res)
  {
    if res.NetworkDown? || res.json.None? {
      return map[];
    }
    var it := Iterate(res.json.value);
    if it.Err? {
      return map[];
    }
    var xs := it.value;
    tips := map[];
    var i := 0;
    while i < |xs|
      invariant 0 <= i <= |xs|
      invariant NoNull(xs[..i])
      invariant tips == TipsMap(xs[..i])
    {
      if xs[i] == Null {
        assert !NoNull(xs);
        return map[];
      }
      assert xs[..i + 1][..i] == xs[..i];
      tips := tips[TipKey(xs[i]) := TipsOf(xs[i])];
      i := i + 1;
    }
    assert xs[..i] == xs;
  }

  /** Every disaster id has an entry and nothing else does; the entry is the
      tips of the last disaster with that id. */
  lemma {:induction false} TipsLastWins(xs: seq<Json>, i: nat)
    requires NoNull(xs) && i < |xs|
    requires forall j | i < j < |xs| :: TipKey(xs[j]) != TipKey(xs[i])
    ensures TipKey(xs[i]) in TipsMap(xs) && TipsMap(xs)[TipKey(xs[i])] == TipsOf(xs[i])
  {
    var n := |xs| - 1;
    if i < n {
      assert NoNull(xs[..n]);
      assert xs[..n][i] == xs[i];
      TipsLastWins(xs[..n], i);
    }
  }

  lemma {:induction false} TipsKeys(xs: seq<Json>, k: string)
    requires NoNull(xs)
    ensures k in TipsMap(xs) <==> exists i | 0 <= i < |xs| :: TipKey(xs[i]) == k
  {
    if xs != [] {
      var n := |xs| - 1;
      assert NoNull(xs[..n]);
      TipsKeys(xs[..n], k);
      if k in TipsMap(xs[..n]) {
        var i :| 0 <= i < n && TipKey(xs[..n][i]) == k;
        assert TipKey(xs[i]) == k;
      }
      if exists i | 0 <= i < |xs| :: TipKey(xs[i]) == k {
        var i :| 0 <= i < |xs| && TipKey(xs[i]) == k;
        if i < n {
          assert TipKey(xs[..n][i]) == k;
        }
      }
    }
  }
}
