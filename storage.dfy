/**
 * The localStorage helpers of src/utils/storage.js: JSON read with a
 * fallback, JSON write, and the read-modify-write `upsertArrayItem`.
 *
 * localStorage maps keys to strings. The model keeps, per key, what that
 * string is to `JSON.parse`: empty, malformed, or the text of a JSON value.
 */
module Storage {
  import opened Js

  /** The string stored under a key: "", text that `JSON.parse` rejects, or
      the text `JSON.stringify(value)` produced. */
  datatype Stored = Blank | Garbled | Encoded(value: Json)

  /** The application's `StorageKeys`. */
  const UsersKey: string := "des_users"
  const SessionKey: string := "des_session"
  const GameProgressKey: string := "des_game_progress"

  /** `readJSON(key, fallback)`: the parsed value, or `fallback` when the key
      is absent, its string is empty, or parsing throws. */
  function ReadJSON(items: map<string, Stored>, key: string, fallback: Json): Json {
    if key in items && items[key].Encoded? then items[key].value else fallback
  }

  /** `arr.findIndex(matches)`. */
  function FindIndex(xs: seq<Json>, matches: Json -> bool): (i: int)
    ensures -1 <= i < |xs|
    ensures i >= 0 ==> matches(xs[i]) && forall j | 0 <= j < i :: !matches(xs[j])
    ensures i == -1 ==> forall j | 0 <= j < |xs| :: !matches(xs[j])
  {
    if xs == [] then -1
    else if matches(xs[0]) then 0
    else
      var k := FindIndex(xs[1..], matches);
      assert forall j | 1 <= j < |xs| :: xs[j] == xs[1..][j - 1];
      if k < 0 then -1 else k + 1
  }

  /** The array `upsertArrayItem` writes back. */
  function Upserted(xs: seq<Json>, item: Json, matches: Json -> bool): seq<Json> {
    var i := FindIndex(xs, matches);
    if i >= 0 then xs[i := item] else xs + [item]
  }

  /** The item under `key` parses to a truthy value. */
  predicate StoredTruthy(items: map<string, Stored>, key: string) {
    key in items && items[key].Encoded? && Truthy(Some(items[key].value))
  }

  /** `readJSON(key, d) || d` (and `JSON.parse(getItem(key)) || d` inside a
      try): the stored value, or `d` when it is missing, unreadable or
      falsy. */
  function ReadOr(items: map<string, Stored>, key: string, d: Json): (r: Json)
    ensures key in items && items[key].Encoded? && Truthy(Some(items[key].value)) ==> r == items[key].value
    ensures !(key in items && items[key].Encoded? && Truthy(Some(items[key].value))) ==> r == d
  {
    Or(Some(ReadJSON(items, key, d)), d)
  }

  class LocalStorage {
    var items: map<string, Stored>

    constructor ()
      ensures items == map[]
    {
      items := map[];
    }

    /** `writeJSON(key, value)`. */
    method WriteJSON(key: string, value: Json)
      modifies this
      ensures items == old(items)[key := Encoded(value)]
    {
      items := items[key := Encoded(value)];
    }

    /** `localStorage.clear()`. */
    method Clear()
      modifies this
      ensures items == map[]
    {
      items := map[];
    }

    /** `upsertArrayItem(key, item, matchFn)`: replace the first element that
        matches, or append the item, and write the array back. A stored value
        that is not an array has no `findIndex`, which throws a TypeError
        before anything is written. */
    method UpsertArrayItem(key: string, item: Json, matches: Json -> bool) returns (r: Result<()>)
      modifies this
      ensures r.Ok? <==> ReadOr(old(items), key, Arr([])).Arr?
      ensures r.Ok? ==> items == old(items)[key := Encoded(Arr(Upserted(ReadOr(old(items), key, Arr([])).items, item, matches)))]
      ensures r.Err? ==> r.error == TypeError && items == old(items)
    {
      var arr := ReadOr(items, key, Arr([]));
      if !arr.Arr? {
        return Err(TypeError);
      }
      var xs := arr.items;
      var idx := FindIndex(xs, matches);
      if idx >= 0 {
        xs := xs[idx := item];
      } else {
        xs := xs + [item];
      }
      WriteJSON(key, Arr(xs));
      r := Ok(());
    }
  }

  // ---------------------------------------------------------------------
  // Properties

  /** An absent key, an empty string and a string that does not parse all
      read as the fallback. */
  lemma ReadFallback(items: map<string, Stored>, key: string, fallback: Json)
    requires key !in items || items[key] == Blank || items[key] == Garbled
    ensures ReadJSON(items, key, fallback) == fallback
  {
  }

  /** What `writeJSON` stores under a key reads back unchanged, whatever the
      fallback, and every other key reads as before. */
  lemma WriteThenRead(items: map<string, Stored>, key: string, value: Json, other: string, fallback: Json)
    ensures ReadJSON(items[key := Encoded(value)], key, fallback) == value
    ensures other != key ==> ReadJSON(items[key := Encoded(value)], other, fallback) == ReadJSON(items, other, fallback)
  {
  }

  /** With a matching element, the first match is replaced in place and
      nothing else moves. */
  lemma UpsertReplacesFirstMatch(xs: seq<Json>, item: Json, matches: Json -> bool, k: nat)
    requires k < |xs| && matches(xs[k]) && forall j | 0 <= j < k :: !matches(xs[j])
    ensures |Upserted(xs, item, matches)| == |xs|
    ensures Upserted(xs, item, matches)[k] == item
    ensures forall j | 0 <= j < |xs| && j != k :: Upserted(xs, item, matches)[j] == xs[j]
  {
  }

  /** Without a matching element, the item is appended after the unchanged
      array. */
  lemma UpsertAppends(xs: seq<Json>, item: Json, matches: Json -> bool)
    requires forall j | 0 <= j < |xs| :: !matches(xs[j])
    ensures |Upserted(xs, item, matches)| == |xs| + 1
    ensures Upserted(xs, item, matches)[..|xs|] == xs
    ensures Upserted(xs, item, matches)[|xs|] == item
  {
  }

  /** The three `StorageKeys` name different entries. */
  lemma StorageKeysDistinct()
    ensures UsersKey != SessionKey && SessionKey != GameProgressKey && UsersKey != GameProgressKey
  {
  }
}
