/**
 * Game results of src/utils/games.js: a per-user progress object in
 * localStorage (`des_game_progress`, user key to list of results) and the
 * IndexedDB `gameResults` store.
 */
module Games {
  import opened Js
  import opened Storage
  import opened Auth
  import opened Idb

  const Guest: string := "guest"

  /** `getSession() || {}`. */
  function SessionOrEmpty(items: map<string, Stored>): Json {
    Or(Some(GetSession(items)), Obj(map[]))
  }

  /** `session.email || 'guest'`. */
  function UserOf(items: map<string, Stored>): Json {
    Or(Chain(Some(SessionOrEmpty(items)), "email"), Str(Guest))
  }

  /** The property key the user's list sits under. */
  function UserKey(items: map<string, Stored>): string {
    JsonToString(UserOf(items))
  }

  /** A signed-in user's email is the key; without a session it is 'guest'. */
  lemma UserKeyCases(items: map<string, Stored>, e: string)
    ensures GetSession(items) == Null ==> UserKey(items) == Guest
    ensures (exists m :: GetSession(items) == Obj(m) && "email" in m && m["email"] == Str(e)) && e != "" ==>
      UserKey(items) == e
  {
  }

  /** `readJSON(StorageKeys.GameProgress, {}) || {}`, which is also
      `getLocalGameResults()`. */
  function Progress(items: map<string, Stored>): (r: Json)
    ensures GameProgressKey !in items || !items[GameProgressKey].Encoded? ==> r == Obj(map[])
    ensures StoredTruthy(items, GameProgressKey) ==> r == items[GameProgressKey].value
    ensures !StoredTruthy(items, GameProgressKey) ==> r == Obj(map[])
  {
    ReadOr(items, GameProgressKey, Obj(map[]))
  }

  /** `getLocalGameResults()`. */
  function GetLocalGameResults(items: map<string, Stored>): (r: Json)
    ensures GameProgressKey !in items ==> r == Obj(map[])
    ensures StoredTruthy(items, GameProgressKey) ==> r == items[GameProgressKey].value
    ensures !StoredTruthy(items, GameProgressKey) ==> r == Obj(map[])
  {
    Progress(items)
  }

  /** An array with `v` at index `i`; the holes an assignment past the end
      leaves are written by `JSON.stringify` as null. */
  function SetIndex(xs: seq<Json>, i: nat, v: Json): (r: seq<Json>)
    ensures |r| == if i < |xs| then |xs| else i + 1
    ensures r[i] == v && forall j | 0 <= j < |xs| && j != i :: r[j] == xs[j]
  {
    if i < |xs| then xs[i := v] else xs + seq(i - |xs|, _ => Null) + [v]
  }

  /** The progress value `saveLocalGameResult` writes, after
      `if (!all[key]) all[key] = []` and `all[key].push(result)`. Only an
      object or an array can take the assignment (a module is strict code);
      only an array has `push`. On an array the list lands at an index key
      (below 2^32 - 1) and is dropped by `JSON.stringify` at any other key.
      Assigning `[]` to an empty array's `length` keeps it 0 (`[]` converts
      to 0), and the push then calls `push` on the number 0, which throws a
      TypeError. */
  function Progressed(all: Json, key: string, result: Json): Result<Json> {
    match all
    case Obj(m) =>
      var list := Or(Prop(all, key).value, Arr([]));
      if !list.Arr? then Err(TypeError) else Ok(Obj(m[key := Arr(list.items + [result])]))
    case Arr(xs) =>
      var slot := Prop(all, key).value;
      if !Truthy(slot) && key == "length" then Err(TypeError)
      else
        var list := Or(slot, Arr([]));
        if !list.Arr? then Err(TypeError)
        else (match ArrayIndex(key)
          case None => Ok(all)
          case Some(i) => Ok(Arr(SetIndex(xs, i, Arr(list.items + [result])))))
    case _ => Err(TypeError)
  }

  /** `saveLocalGameResult(result)`. */
  method SaveLocalGameResult(ls: LocalStorage, result: Json) returns (r: Result<()>)
    modifies ls
    ensures var next := Progressed(Progress(old(ls.items)), UserKey(old(ls.items)), result);
      && (r.Ok? <==> next.Ok?)
      && (r.Ok? ==> ls.items == old(ls.items)[GameProgressKey := Encoded(next.value)])
      && (r.Err? ==> r.error == next.error && ls.items == old(ls.items))
  {
    var session := SessionOrEmpty(ls.items);
    var all := Progress(ls.items);
    var key := JsonToString(Or(Chain(Some(session), "email"), Str(Guest)));
    var next := Progressed(all, key, result);
    if next.Err? {
      return Err(next.error);
    }
    ls.WriteJSON(GameProgressKey, next.value);
    r := Ok(());
  }

  /** The user's list before the call: missing or falsy means empty. */
  function ListOf(m: map<string, Json>, key: string): seq<Json>
    requires key !in m || !Truthy(Some(m[key])) || m[key].Arr?
  {
    if key in m && Truthy(Some(m[key])) then m[key].items else []
  }

  /** On a progress array, the key `length` always throws a TypeError (a
      non-empty array's length is a truthy number, an empty one's becomes
      0). An index key (at most `MaxArrayIndex`) takes the user's list,
      created when the slot is falsy, with the result appended, past the
      end too, and leaves every other element; a truthy slot that is not a
      list throws. Any other key, a larger number included, leaves the
      array as it was. */
  lemma ProgressArray(xs: seq<Json>, key: string, result: Json)
    ensures key == "length" ==> Progressed(Arr(xs), key, result) == Err(TypeError)
    ensures key != "length" && ArrayIndex(key).None? ==> Progressed(Arr(xs), key, result) == Ok(Arr(xs))
    ensures ArrayIndex(key).Some? ==>
      var i := ArrayIndex(key).value;
      var slot := if i < |xs| then Some(xs[i]) else None;
      var next := Progressed(Arr(xs), key, result);
      && (next.Ok? <==> !Truthy(slot) || slot.value.Arr?)
      && (next.Err? ==> next.error == TypeError)
      && (next.Ok? ==>
            && next.value.Arr?
            && |next.value.items| == (if i < |xs| then |xs| else i + 1)
            && next.value.items[i] == Arr((if Truthy(slot) then slot.value.items else []) + [result])
            && forall j | 0 <= j < |xs| && j != i :: next.value.items[j] == xs[j])
  {
    assert !IsDigit("length"[0]);
  }

  /** The email "4294967295" is no array index: on an empty progress array
      the list becomes an ordinary property, which `JSON.stringify` drops,
      so `[]` is written back. */
  lemma ProgressArrayBeyondLastIndex(result: Json)
    ensures Progressed(Arr([]), NatToString(MaxArrayIndex + 1), result) == Ok(Arr([]))
  {
    NatToStringRoundTrip(MaxArrayIndex + 1);
    NatToStringLeading(MaxArrayIndex + 1);
  }

  /** On a progress object the result is appended to the user's list,
      which is created when missing; other users' lists are untouched. A
      user entry that is truthy but not a list has no `push`. */
  lemma ProgressAppends(m: map<string, Json>, key: string, result: Json)
    ensures (key !in m || !Truthy(Some(m[key])) || m[key].Arr?) <==> Progressed(Obj(m), key, result).Ok?
    ensures Progressed(Obj(m), key, result).Ok? ==>
      var n := Progressed(Obj(m), key, result).value;
      && n.Obj?
      && n.fields.Keys == m.Keys + {key}
      && n.fields[key] == Arr(ListOf(m, key) + [result])
      && (key !in m ==> n.fields[key] == Arr([result]))
      && (forall k | k in m && k != key :: n.fields[k] == m[k])
    ensures !Progressed(Obj(m), key, result).Ok? ==> Progressed(Obj(m), key, result) == Err(TypeError)
  {
  }

  /** `saveIndexedGameResult(result)`: open the database, skip a missing
      store, add the record; every failure is swallowed. */
  method SaveIndexedGameResult(db: Database, result: Json)
    requires db.Valid()
    modifies db
    ensures db.Valid()
    ensures KeysAfterOpen(old(db.stores), old(db.version), old(db.nextQuizKey), db.version, db.nextQuizKey)
    ensures old(db.version) > DbVersion ==> db.stores == old(db.stores)
    ensures old(db.version) <= DbVersion ==>
      var up := Upgraded(old(db.stores), old(db.version));
      var k := RecordKey(result);
      && (GameResultsStore in up && k.Ok? && k.value !in up[GameResultsStore] ==>
            db.stores == up[GameResultsStore := up[GameResultsStore][k.value := result]])
      && (!(GameResultsStore in up && k.Ok? && k.value !in up[GameResultsStore]) ==> db.stores == up)
  {
    var o := db.Open();
    if o.Err? {
      return;
    }
    if GameResultsStore !in db.stores {
      return;
    }
    var _ := db.AddGameResult(result);
  }

  /** The record of `saveGameResult`: `id` from the type and the clock,
      `user`, `type`, `score` and `date`, then the fields of `extra`. */
  function GameRecord(items: map<string, Stored>, kind: Option<Json>, score: Option<Json>,
                      extra: Option<Json>, now: nat, date: string): map<string, Json> {
    var base := map["id" := Str(ToString(kind) + "-" + NatToString(now)), "user" := UserOf(items)];
    Spread(WithField(WithField(base, "type", kind), "score", score)["date" := Str(date)], extra)
  }

  /** The literal `{ id, user, type, score, date, ...extra }`. */
  lemma LiteralFields(id: Json, user: Json, kind: Option<Json>, score: Option<Json>, date: string,
                      extra: map<string, Json>)
    ensures var r := Spread(WithField(WithField(map["id" := id, "user" := user], "type", kind), "score", score)["date" := Str(date)], Some(Obj(extra)));
      && (forall k | k in extra :: k in r && r[k] == extra[k])
      && ("id" !in extra ==> r["id"] == id)
      && ("user" !in extra ==> r["user"] == user)
      && ("date" !in extra ==> r["date"] == Str(date))
      && ("type" !in extra && kind.Some? ==> r["type"] == kind.value)
      && ("score" !in extra && score.Some? ==> r["score"] == score.value)
  {
    var typed := WithField(map["id" := id, "user" := user], "type", kind);
    var lit := WithField(typed, "score", score)["date" := Str(date)];
    assert "id" in lit && lit["id"] == id && "user" in lit && lit["user"] == user;
    assert kind.Some? ==> "type" in lit && lit["type"] == kind.value;
  }

  /** The generated fields are present unless `extra` supplies them, and
      every field of `extra` wins. */
  lemma GameRecordFields(items: map<string, Stored>, kind: Option<Json>, score: Option<Json>,
                         extra: map<string, Json>, now: nat, date: string)
    ensures var r := GameRecord(items, kind, score, Some(Obj(extra)), now, date);
      && (forall k | k in extra :: k in r && r[k] == extra[k])
      && ("id" !in extra ==> r["id"] == Str(ToString(kind) + "-" + NatToString(now)))
      && ("user" !in extra ==> r["user"] == UserOf(items))
      && ("date" !in extra ==> r["date"] == Str(date))
      && ("type" !in extra && kind.Some? ==> r["type"] == kind.value)
      && ("score" !in extra && score.Some? ==> r["score"] == score.value)
  {
    LiteralFields(Str(ToString(kind) + "-" + NatToString(now)), UserOf(items), kind, score, date, extra);
  }

  /** `saveGameResult(type, score, extra)`: the local write, then the
      IndexedDB write, then the record. A failed local write throws before
      the database is touched. */
  method SaveGameResult(ls: LocalStorage, db: Database, kind: Option<Json>, score: Option<Json>,
                        extra: Option<Json>, now: nat, date: string) returns (r: Result<Json>)
    requires db.Valid()
    modifies ls, db
    ensures db.Valid()
    ensures var record := Obj(GameRecord(old(ls.items), kind, score, extra, now, date));
      var next := Progressed(Progress(old(ls.items)), UserKey(old(ls.items)), record);
      && (r.Ok? <==> next.Ok?)
      && (r.Err? ==> r.error == next.error && ls.items == old(ls.items) && db.stores == old(db.stores))
      && (r.Err? ==> db.version == old(db.version) && db.nextQuizKey == old(db.nextQuizKey))
      && (r.Ok? ==>
            && r.value == record
            && ls.items == old(ls.items)[GameProgressKey := Encoded(next.value)]
            && KeysAfterOpen(old(db.stores), old(db.version), old(db.nextQuizKey), db.version, db.nextQuizKey)
            && (old(db.version) > DbVersion ==> db.stores == old(db.stores))
            && (old(db.version) <= DbVersion ==>
                  var up := Upgraded(old(db.stores), old(db.version));
                  var k := RecordKey(record);
                  && (GameResultsStore in up && k.Ok? && k.value !in up[GameResultsStore] ==>
                        db.stores == up[GameResultsStore := up[GameResultsStore][k.value := record]])
                  && (!(GameResultsStore in up && k.Ok? && k.value !in up[GameResultsStore]) ==> db.stores == up)))
  {
    var record := Obj(GameRecord(ls.items, kind, score, extra, now, date));
    var local := SaveLocalGameResult(ls, record);
    if local.Err? {
      return Err(local.error);
    }
    SaveIndexedGameResult(db, record);
    r := Ok(record);
  }
}
