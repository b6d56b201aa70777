/**
 * The IndexedDB database of src/utils/idb.js: `disaster-db` at version 3
 * with three object stores, all keyed in-line by the record's `id`:
 *   - `faqs`        written with `put` (overwrite),
 *   - `quizResults` written with `add` through a key generator,
 *   - `gameResults` written with `add` (no overwrite, no generator).
 * Store contents are maps from key to record; `getAll` lists them in key
 * order (Indexed Database API 3.0, section 2.7: numbers before strings,
 * numbers by value, strings by code unit). Strings here are sequences of
 * code points, so string keys compare by code point, which agrees with
 * code-unit order except for characters beyond U+FFFF.
 */
module Idb {
  import opened Js

  const DbVersion: nat := 3
  const FaqsStore: string := "faqs"
  const QuizResultsStore: string := "quizResults"
  const GameResultsStore: string := "gameResults"
  /** A key generator fails once its current number exceeds 2^53. */
  const MaxGeneratedKey: int := 0x20_0000_0000_0000

  datatype Key = NumKey(n: int) | StrKey(s: string)

  type Store = map<Key, Json>

  // ---------------------------------------------------------------------
  // Key order

  /** Strings compare by code point; a proper prefix comes first. */
  predicate StrBelow(a: string, b: string)
    decreases |a|
  {
    |b| > 0 && (|a| == 0 || a[0] < b[0] || (a[0] == b[0] && StrBelow(a[1..], b[1..])))
  }

  predicate Below(a: Key, b: Key) {
    match (a, b)
      case (NumKey(x), NumKey(y)) => x < y
      case (NumKey(_), StrKey(_)) => true
      case (StrKey(_), NumKey(_)) => false
      case (StrKey(x), StrKey(y)) => StrBelow(x, y)
  }

  lemma {:induction false} StrBelowIrreflexive(a: string)
    ensures !StrBelow(a, a)
  {
    if |a| > 0 {
      StrBelowIrreflexive(a[1..]);
    }
  }

  lemma {:induction false} StrBelowTransitive(a: string, b: string, c: string)
    requires StrBelow(a, b) && StrBelow(b, c)
    ensures StrBelow(a, c)
  {
    if |a| > 0 && a[0] == b[0] && b[0] == c[0] {
      StrBelowTransitive(a[1..], b[1..], c[1..]);
    }
  }

  lemma {:induction false} StrBelowTotal(a: string, b: string)
    requires a != b
    ensures StrBelow(a, b) || StrBelow(b, a)
  {
    if |a| > 0 && |b| > 0 && a[0] == b[0] {
      assert a == [a[0]] + a[1..] && b == [b[0]] + b[1..];
      StrBelowTotal(a[1..], b[1..]);
    }
  }

  lemma BelowIrreflexive(a: Key)
    ensures !Below(a, a)
  {
    if a.StrKey? {
      StrBelowIrreflexive(a.s);
    }
  }

  lemma BelowTransitive(a: Key, b: Key, c: Key)
    requires Below(a, b) && Below(b, c)
    ensures Below(a, c)
  {
    if a.StrKey? && b.StrKey? && c.StrKey? {
      StrBelowTransitive(a.s, b.s, c.s);
    }
  }

  lemma BelowTotal(a: Key, b: Key)
    requires a != b
    ensures Below(a, b) || Below(b, a)
  {
    if a.StrKey? && b.StrKey? {
      StrBelowTotal(a.s, b.s);
    }
  }

  /** `k` is the smallest key of `s`. */
  predicate IsLeast(k: Key, s: set<Key>) {
    k in s && forall j | j in s && j != k :: Below(k, j)
  }

  lemma {:induction false} LeastExists(s: set<Key>)
    requires s != {}
    ensures exists k :: IsLeast(k, s)
    decreases |s|
  {
    var x :| x in s;
    var rest := s - {x};
    if rest == {} {
      assert s == {x};
      assert IsLeast(x, s);
    } else {
      LeastExists(rest);
      var y :| IsLeast(y, rest);
      if Below(x, y) {
        forall j | j in s && j != x
          ensures Below(x, j)
        {
          if j != y {
            BelowTransitive(x, y, j);
          }
        }
        assert IsLeast(x, s);
      } else {
        BelowTotal(x, y);
        assert IsLeast(y, s);
      }
    }
  }

  /** `records` lists the store's records by ascending key, `keys` being
      those keys. */
  ghost predicate ListedInKeyOrder(store: Store, keys: seq<Key>, records: seq<Json>) {
    && |keys| == |records|
    && (forall i, j | 0 <= i < j < |keys| :: Below(keys[i], keys[j]))
    && (forall k :: k in keys <==> k in store)
    && (forall i | 0 <= i < |keys| :: records[i] == store[keys[i]])
  }

  /** `keys` holds exactly the keys of `ks`, ascending. */
  ghost predicate AscendingOver(keys: seq<Key>, ks: set<Key>) {
    && (forall i, j | 0 <= i < j < |keys| :: Below(keys[i], keys[j]))
    && (forall k :: k in keys <==> k in ks)
  }

  /** Two ascending listings of a key set start with the same key. */
  lemma FirstKeysAgree(ks: set<Key>, k1: seq<Key>, k2: seq<Key>)
    requires AscendingOver(k1, ks) && AscendingOver(k2, ks)
    requires |k1| > 0 && |k2| > 0
    ensures k1[0] == k2[0]
  {
    var a := k1[0];
    var b := k2[0];
    if a != b {
      assert b in k1;
      var i :| 0 <= i < |k1| && k1[i] == b;
      assert a in k2;
      var j :| 0 <= j < |k2| && k2[j] == a;
      assert Below(a, b) && Below(b, a);
      BelowTransitive(a, b, a);
      BelowIrreflexive(a);
    }
  }

  /** Past its first key, an ascending listing lists the rest of the set. */
  lemma AscendingTail(ks: set<Key>, keys: seq<Key>)
    requires AscendingOver(keys, ks) && |keys| > 0
    ensures AscendingOver(keys[1..], ks - {keys[0]})
  {
    forall k
      ensures k in keys[1..] <==> k in ks - {keys[0]}
    {
      if k in keys[1..] {
        var i :| 1 <= i < |keys| && keys[i] == k;
        if k == keys[0] {
          BelowIrreflexive(k);
        }
      }
      if k in ks - {keys[0]} {
        assert k in keys && k != keys[0];
      }
    }
  }

  /** A listing is empty exactly when its key set is. */
  lemma EmptyListing(ks: set<Key>, keys: seq<Key>)
    requires AscendingOver(keys, ks)
    ensures keys == [] <==> ks == {}
  {
    if keys != [] {
      assert keys[0] in ks;
    }
    if ks != {} {
      var k :| k in ks;
      assert k in keys;
    }
  }

  /** Only one key sequence is in ascending order over a given key set. */
  lemma {:induction false} AscendingUnique(ks: set<Key>, k1: seq<Key>, k2: seq<Key>)
    requires AscendingOver(k1, ks) && AscendingOver(k2, ks)
    ensures k1 == k2
    decreases |k1|
  {
    if |k1| > 0 && |k2| > 0 {
      FirstKeysAgree(ks, k1, k2);
      AscendingTail(ks, k1);
      AscendingTail(ks, k2);
      AscendingUnique(ks - {k1[0]}, k1[1..], k2[1..]);
      assert k1 == [k1[0]] + k1[1..] && k2 == [k2[0]] + k2[1..];
    } else {
      EmptyListing(ks, k1);
      EmptyListing(ks, k2);
    }
  }

  /** Only one listing of a store is in ascending key order, so `getAll` has
      exactly one possible answer. */
  lemma KeyOrderUnique(store: Store, k1: seq<Key>, r1: seq<Json>, k2: seq<Key>, r2: seq<Json>)
    requires ListedInKeyOrder(store, k1, r1) && ListedInKeyOrder(store, k2, r2)
    ensures k1 == k2 && r1 == r2
  {
    AscendingUnique(store.Keys, k1, k2);
  }

  lemma NoKeysIffEmpty(store: Store, keys: seq<Key>)
    requires forall k :: k in keys <==> k in store
    ensures keys == [] <==> store == map[]
  {
    if keys != [] {
      assert keys[0] in store;
    }
    if store != map[] {
      var k :| k in store;
      assert k in keys;
    }
  }

  /** `getAll` on one store: the records in ascending key order. */
  method ListAll(store: Store) returns (records: seq<Json>, ghost keys: seq<Key>)
    ensures ListedInKeyOrder(store, keys, records)
  {
    var remaining := store.Keys;
    records, keys := [], [];
    while remaining != {}
      invariant remaining <= store.Keys
      invariant forall k :: k in keys <==> k in store && k !in remaining
      invariant forall i, j | 0 <= i < j < |keys| :: Below(keys[i], keys[j])
      invariant forall i, k | 0 <= i < |keys| && k in remaining :: Below(keys[i], k)
      invariant |records| == |keys| && forall i | 0 <= i < |keys| :: records[i] == store[keys[i]]
      decreases |remaining|
    {
      LeastExists(remaining);
      var k :| IsLeast(k, remaining);
      keys, records := keys + [k], records + [store[k]];
      remaining := remaining - {k};
    }
  }

  // ---------------------------------------------------------------------
  // Keys of records

  /** The key path `id` evaluated on a record: `None` when the record has
      no `id`, a key for a number or a string, and a DataError for any
      other value. */
  function KeyPathValue(record: Json): (r: Result<Option<Key>>)
    ensures r.Ok? && r.value.None? <==> !(record.Obj? && "id" in record.fields)
    ensures r.Ok? && r.value.Some? ==> record.Obj? && "id" in record.fields
  {
    if record.Obj? && "id" in record.fields then
      match record.fields["id"]
        case Num(n) => Ok(Some(NumKey(n)))
        case Str(s) => Ok(Some(StrKey(s)))
        case _ => Err(DataError)
    else Ok(None)
  }

  /** The key of a record written to a store without a key generator: a
      record without a usable `id` is a DataError. */
  function RecordKey(record: Json): (r: Result<Key>)
    ensures r.Ok? <==> record.Obj? && "id" in record.fields && (record.fields["id"].Num? || record.fields["id"].Str?)
  {
    var k :- KeyPathValue(record);
    if k.None? then Err(DataError) else Ok(k.value)
  }

  /** The `put` calls of `saveFaqs`, one per record in order. A record
      without a valid key throws out of the loop; the puts issued before it
      still commit. */
  function PutEach(store: Store, records: seq<Json>): (Store, Result<()>)
    decreases |records|
  {
    if records == [] then (store, Ok(()))
    else match RecordKey(records[0])
      case Err(e) => (store, Err(e))
      case Ok(k) => PutEach(store[k := records[0]], records[1..])
  }

  /** Every record has a valid key. */
  predicate AllKeyed(records: seq<Json>) {
    forall i | 0 <= i < |records| :: RecordKey(records[i]).Ok?
  }

  /** When every record has a valid key, all the puts succeed. */
  lemma {:induction false} PutEachSucceeds(store: Store, records: seq<Json>)
    requires AllKeyed(records)
    ensures PutEach(store, records).1 == Ok(())
    decreases |records|
  {
    if records != [] {
      assert AllKeyed(records[1..]) by {
        forall i | 0 <= i < |records[1..]|
          ensures RecordKey(records[1..][i]).Ok?
        {
          assert records[1..][i] == records[i + 1];
        }
      }
      PutEachSucceeds(store[RecordKey(records[0]).value := records[0]], records[1..]);
    }
  }

  /** A key no record carries keeps its old entry (or stays absent). */
  lemma {:induction false} PutEachUntouched(store: Store, records: seq<Json>, k: Key)
    requires forall i | 0 <= i < |records| :: RecordKey(records[i]) != Ok(k)
    ensures k in PutEach(store, records).0 <==> k in store
    ensures k in store ==> PutEach(store, records).0[k] == store[k]
    decreases |records|
  {
    if records != [] && RecordKey(records[0]).Ok? {
      forall i | 0 <= i < |records[1..]|
        ensures RecordKey(records[1..][i]) != Ok(k)
      {
        assert records[1..][i] == records[i + 1];
      }
      PutEachUntouched(store[RecordKey(records[0]).value := records[0]], records[1..], k);
    }
  }

  /** The last record carrying a key is the one stored under it. */
  lemma {:induction false} PutEachLastWins(store: Store, records: seq<Json>, i: nat)
    requires AllKeyed(records)
    requires i < |records|
    requires forall j | i < j < |records| :: RecordKey(records[j]) != RecordKey(records[i])
    ensures RecordKey(records[i]).value in PutEach(store, records).0
    ensures PutEach(store, records).0[RecordKey(records[i]).value] == records[i]
    decreases |records|
  {
    var k0 := RecordKey(records[0]).value;
    var rest := records[1..];
    assert AllKeyed(rest) by {
      forall j | 0 <= j < |rest|
        ensures RecordKey(rest[j]).Ok?
      {
        assert rest[j] == records[j + 1];
      }
    }
    if i == 0 {
      forall j | 0 <= j < |rest|
        ensures RecordKey(rest[j]) != Ok(k0)
      {
        assert rest[j] == records[j + 1];
      }
      PutEachUntouched(store[k0 := records[0]], rest, k0);
    } else {
      assert records[i] == rest[i - 1];
      forall j | i - 1 < j < |rest|
        ensures RecordKey(rest[j]) != RecordKey(rest[i - 1])
      {
        assert rest[j] == records[j + 1];
      }
      PutEachLastWins(store[k0 := records[0]], rest, i - 1);
    }
  }

  /** A record without a valid key stops the loop: the store then holds
      exactly the puts of the records before the first such record. */
  lemma {:induction false} PutEachStopsAtBadRecord(store: Store, records: seq<Json>, b: nat)
    requires b < |records| && RecordKey(records[b]).Err?
    requires forall i | 0 <= i < b :: RecordKey(records[i]).Ok?
    ensures PutEach(store, records) == (PutEach(store, records[..b]).0, Err(DataError))
    decreases b
  {
    if b > 0 {
      var k0 := RecordKey(records[0]).value;
      assert records[1..][..b - 1] == records[..b][1..];
      forall i | 0 <= i < b - 1
        ensures RecordKey(records[1..][i]).Ok?
      {
        assert records[1..][i] == records[i + 1];
      }
      PutEachStopsAtBadRecord(store[k0 := records[0]], records[1..], b - 1);
    } else {
      assert records[..0] == [];
    }
  }

  /** The store names the upgrade callback creates. */
  function CreateMissing(stores: map<string, Store>, name: string): map<string, Store> {
    if name in stores then stores else stores[name := map[]]
  }

  /** The stores after opening at version 3: the upgrade callback runs only
      when the stored version is lower, and creates a store only if it is
      missing. */
  function Upgraded(stores: map<string, Store>, oldVersion: nat): map<string, Store> {
    if oldVersion < DbVersion then
      CreateMissing(CreateMissing(CreateMissing(stores, FaqsStore), QuizResultsStore), GameResultsStore)
    else stores
  }

  /** Opening never clears or replaces an existing store, and an upgrade
      leaves all three application stores in place. */
  lemma UpgradeKeepsStores(stores: map<string, Store>, oldVersion: nat)
    ensures forall n | n in stores :: n in Upgraded(stores, oldVersion) && Upgraded(stores, oldVersion)[n] == stores[n]
    ensures forall n | n in Upgraded(stores, oldVersion) && n !in stores :: Upgraded(stores, oldVersion)[n] == map[]
    ensures oldVersion < DbVersion ==>
      Upgraded(stores, oldVersion).Keys == stores.Keys + {FaqsStore, QuizResultsStore, GameResultsStore}
    ensures oldVersion >= DbVersion ==> Upgraded(stores, oldVersion) == stores
  {
    var s1 := CreateMissing(stores, FaqsStore);
    var s2 := CreateMissing(s1, QuizResultsStore);
    CreateMissingSpec(stores, FaqsStore);
    CreateMissingSpec(s1, QuizResultsStore);
    CreateMissingSpec(s2, GameResultsStore);
  }

  /** The callback adds the named store, empty, only when it is missing. */
  lemma CreateMissingSpec(stores: map<string, Store>, name: string)
    ensures var r := CreateMissing(stores, name);
      && r.Keys == stores.Keys + {name}
      && (forall n | n in stores :: r[n] == stores[n])
      && (name !in stores ==> r[name] == map[])
  {
  }

  /** Upgrading twice is upgrading once. */
  lemma UpgradeIdempotent(stores: map<string, Store>, v: nat, w: nat)
    ensures Upgraded(Upgraded(stores, v), w) == Upgraded(stores, v) || (v >= DbVersion && w < DbVersion)
  {
    if v < DbVersion {
      var once := Upgraded(stores, v);
      assert FaqsStore in once && QuizResultsStore in once && GameResultsStore in once;
    }
  }

  // ---------------------------------------------------------------------
  // The database

  class Database {
    /** 0 while the database does not exist. */
    var version: nat
    var stores: map<string, Store>
    /** The current number of the `quizResults` key generator. */
    var nextQuizKey: int

    /** Numeric keys already in `quizResults` are below the generator's
        current number (or the generator is exhausted). */
    predicate Valid()
      reads this
    {
      && nextQuizKey >= 1
      && (QuizResultsStore in stores ==>
            forall k | k in stores[QuizResultsStore] && k.NumKey? :: k.n < nextQuizKey || nextQuizKey > MaxGeneratedKey)
    }

    constructor ()
      ensures Valid() && version == 0 && stores == map[]
    {
      version := 0;
      stores := map[];
      nextQuizKey := 1;
    }

    /** `getDB()`: open at version 3. A database stored at a higher version
        refuses with a VersionError. */
    method Open() returns (r: Result<()>)
      requires Valid()
      modifies this
      ensures Valid()
      ensures old(version) > DbVersion ==> r == Err(VersionError) && unchanged(this)
      ensures old(version) <= DbVersion ==>
        && r == Ok(())
        && version == DbVersion
        && stores == Upgraded(old(stores), old(version))
        && nextQuizKey == (if QuizResultsStore in old(stores) then old(nextQuizKey) else 1)
    {
      if version > DbVersion {
        return Err(VersionError);
      }
      if version < DbVersion {
        if FaqsStore !in stores {
          stores := stores[FaqsStore := map[]];
        }
        if QuizResultsStore !in stores {
          stores := stores[QuizResultsStore := map[]];
          nextQuizKey := 1;
        }
        if GameResultsStore !in stores {
          stores := stores[GameResultsStore := map[]];
        }
      } else if QuizResultsStore !in stores {
        nextQuizKey := 1;
      }
      version := DbVersion;
      r := Ok(());
    }

    /** `saveFaqs(faqArray)`: one read-write transaction putting each record
        under its `id`. */
    method SaveFaqs(faqArray: Json) returns (r: Result<()>)
      requires Valid()
      modifies this
      ensures Valid()
      ensures old(version) > DbVersion ==> r == Err(VersionError) && unchanged(this)
      ensures old(version) <= DbVersion ==>
        var upgraded := Upgraded(old(stores), old(version));
        && version == DbVersion
        && nextQuizKey == (if QuizResultsStore in old(stores) then old(nextQuizKey) else 1)
        && (FaqsStore !in upgraded ==> r == Err(NotFoundError) && stores == upgraded)
        && (FaqsStore in upgraded && Iterate(faqArray).Err? ==> r == Err(TypeError) && stores == upgraded)
        && (FaqsStore in upgraded && Iterate(faqArray).Ok? ==>
              var put := PutEach(upgraded[FaqsStore], Iterate(faqArray).value);
              r == put.1 && stores == upgraded[FaqsStore := put.0])
    {
      r := Open();
      if r.Err? {
        return;
      }
      if FaqsStore !in stores {
        return Err(NotFoundError);
      }
      var items := Iterate(faqArray);
      if items.Err? {
        return Err(items.error);
      }
      r := PutFaqs(items.value);
    }

    /** The `put` loop of `saveFaqs` inside the open transaction. */
    method PutFaqs(xs: seq<Json>) returns (r: Result<()>)
      requires Valid() && FaqsStore in stores
      modifies this
      ensures Valid() && version == old(version) && nextQuizKey == old(nextQuizKey)
      ensures var put := PutEach(old(stores)[FaqsStore], xs);
        r == put.1 && stores == old(stores)[FaqsStore := put.0]
    {
      var i := 0;
      while i < |xs|
        invariant 0 <= i <= |xs|
        invariant Valid() && version == old(version) && nextQuizKey == old(nextQuizKey)
        invariant FaqsStore in stores && stores == old(stores)[FaqsStore := stores[FaqsStore]]
        invariant PutEach(stores[FaqsStore], xs[i..]) == PutEach(old(stores)[FaqsStore], xs)
      {
        var k := RecordKey(xs[i]);
        if k.Err? {
          return Err(k.error);
        }
        assert xs[i..] == [xs[i]] + xs[i + 1..];
        stores := stores[FaqsStore := stores[FaqsStore][k.value := xs[i]]];
        i := i + 1;
      }
      r := Ok(());
    }

    /** `getAllFaqs()` and `getQuizResults()`: every record of the store, in
        key order. */
    method GetAllRecords(name: string) returns (r: Result<seq<Json>>, ghost keys: seq<Key>)
      requires Valid()
      requires name == FaqsStore || name == QuizResultsStore
      modifies this
      ensures Valid()
      ensures old(version) > DbVersion ==> r == Err(VersionError) && unchanged(this)
      ensures old(version) <= DbVersion ==>
        && version == DbVersion
        && stores == Upgraded(old(stores), old(version))
        && nextQuizKey == (if QuizResultsStore in old(stores) then old(nextQuizKey) else 1)
        && (name !in stores ==> r == Err(NotFoundError))
        && (name in stores ==> r.Ok? && ListedInKeyOrder(stores[name], keys, r.value))
    {
      keys := [];
      var o := Open();
      if o.Err? {
        return Err(o.error), [];
      }
      if name !in stores {
        return Err(NotFoundError), [];
      }
      var records;
      records, keys := ListAll(stores[name]);
      r := Ok(records);
    }

    /** `saveQuizResult(result)`: `add` into the auto-increment store. A
        result without an `id` gets the generator's current number, written
        into its `id`; an explicit numeric `id` at or above that number
        moves the generator past it. Any failure aborts the transaction,
        which also restores the generator. */
    method SaveQuizResult(result: Json) returns (r: Result<Key>)
      requires Valid()
      modifies this
      ensures Valid()
      ensures old(version) > DbVersion ==> r == Err(VersionError) && unchanged(this)
      ensures old(version) <= DbVersion ==>
        var upgraded := Upgraded(old(stores), old(version));
        var before := if QuizResultsStore in old(stores) then old(nextQuizKey) else 1;
        && version == DbVersion
        && (r.Err? ==> stores == upgraded && nextQuizKey == before)
        && (QuizResultsStore !in upgraded ==> r == Err(NotFoundError))
        && (r.Ok? ==>
              && QuizResultsStore in upgraded
              && QuizResultsStore in stores
              && r.value !in upgraded[QuizResultsStore]
              && r.value in stores[QuizResultsStore]
              && stores == upgraded[QuizResultsStore := stores[QuizResultsStore]]
              && stores[QuizResultsStore] == upgraded[QuizResultsStore][r.value := stores[QuizResultsStore][r.value]]
              && |stores[QuizResultsStore]| == |upgraded[QuizResultsStore]| + 1)
        && (r.Ok? && KeyPathValue(result) == Ok(None) ==>
              && result.Obj?
              && QuizResultsStore in stores
              && r.value == NumKey(before) && nextQuizKey == before + 1
              && stores[QuizResultsStore][r.value] == Obj(result.fields["id" := Num(before)]))
        && (r.Ok? && KeyPathValue(result).Ok? && KeyPathValue(result).value.Some? ==>
              r.value == KeyPathValue(result).value.value && stores[QuizResultsStore][r.value] == result)
        && (QuizResultsStore in upgraded && KeyPathValue(result) == Ok(None) && result.Obj? && before <= MaxGeneratedKey ==> r.Ok?)
    {
      var o := Open();
      if o.Err? {
        return Err(o.error);
      }
      if QuizResultsStore !in stores {
        return Err(NotFoundError);
      }
      var store := stores[QuizResultsStore];
      var kp := KeyPathValue(result);
      if kp.Err? {
        return Err(kp.error);
      }
      var key, record, next;
      if kp.value.None? {
        if !result.Obj? {
          return Err(DataError);
        }
        if nextQuizKey > MaxGeneratedKey {
          return Err(ConstraintError);
        }
        key := NumKey(nextQuizKey);
        record := Obj(result.fields["id" := Num(nextQuizKey)]);
        next := nextQuizKey + 1;
      } else {
        key := kp.value.value;
        record := result;
        next := nextQuizKey;
        if key.NumKey? {
          var v := if key.n < MaxGeneratedKey then key.n else MaxGeneratedKey;
          if v >= nextQuizKey {
            next := v + 1;
          }
        }
      }
      if key in store {
        return Err(ConstraintError);
      }
      stores := stores[QuizResultsStore := store[key := record]];
      nextQuizKey := next;
      r := Ok(key);
    }

    /** `db.add('gameResults', result)` (src/utils/games.js): the record is
        stored under its `id`; an `id` already present is a ConstraintError
        and leaves the store as it was. */
    method AddGameResult(result: Json) returns (r: Result<Key>)
      requires Valid()
      modifies this
      ensures Valid() && version == old(version) && nextQuizKey == old(nextQuizKey)
      ensures GameResultsStore !in old(stores) ==> r == Err(NotFoundError) && stores == old(stores)
      ensures GameResultsStore in old(stores) ==>
        var store := old(stores)[GameResultsStore];
        && (RecordKey(result).Err? ==> r == Err(DataError) && stores == old(stores))
        && (RecordKey(result).Ok? && RecordKey(result).value in store ==> r == Err(ConstraintError) && stores == old(stores))
        && (RecordKey(result).Ok? && RecordKey(result).value !in store ==>
              r == RecordKey(result) && stores == old(stores)[GameResultsStore := store[r.value := result]])
    {
      if GameResultsStore !in stores {
        return Err(NotFoundError);
      }
      var k := RecordKey(result);
      if k.Err? {
        return Err(k.error);
      }
      if k.value in stores[GameResultsStore] {
        return Err(ConstraintError);
      }
      stores := stores[GameResultsStore := stores[GameResultsStore][k.value := result]];
      r := k;
    }
  }

  /** The version and the quiz key generator after `getDB()`, from the
      state (`stores0`, `version0`, `next0`) before it: a newer stored
      version keeps both; otherwise the version becomes 3, and the generator
      keeps its number unless the upgrade creates the quiz store, whose
      generator starts at 1. */
  predicate KeysAfterOpen(stores0: map<string, Store>, version0: nat, next0: int, version: nat, next: int) {
    && (version0 > DbVersion ==> version == version0 && next == next0)
    && (version0 <= DbVersion ==>
          version == DbVersion && next == if QuizResultsStore in stores0 then next0 else 1)
  }

  /** The database after `saveQuizResult` of a result without an `id`,
      from the state (`stores0`, `version0`, `next0`) before the call: a
      newer stored version changes nothing; otherwise the upgrade runs, and
      either the result is added under the generator's number, written into
      its `id`, with the generator moved on, or (a missing store, an
      exhausted generator) the records stay as the upgrade left them. The
      add succeeds whenever the store exists and the generator has a number
      left. */
  predicate QuizResultSaved(stores0: map<string, Store>, version0: nat, next0: int, result: Json,
                            stores: map<string, Store>, version: nat, next: int)
    requires result.Obj?
  {
    var upgraded := Upgraded(stores0, version0);
    var before := if QuizResultsStore in stores0 then next0 else 1;
    var added :=
      && QuizResultsStore in upgraded
      && NumKey(before) !in upgraded[QuizResultsStore]
      && next == before + 1
      && stores == upgraded[QuizResultsStore :=
                              upgraded[QuizResultsStore][NumKey(before) := Obj(result.fields["id" := Num(before)])]];
    && (version0 > DbVersion ==> stores == stores0 && version == version0 && next == next0)
    && (version0 <= DbVersion ==>
          && version == DbVersion
          && (added || (stores == upgraded && next == before))
          && (QuizResultsStore in upgraded && before <= MaxGeneratedKey ==> added))
  }
}
