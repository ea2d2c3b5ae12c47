/**
 * The persistence wrapper (src/services/storage/AsyncStorageService.ts): five
 * fixed keys in a key-value store, each holding a JSON value; three of them hold
 * lists of records that are appended to, updated by id and deleted by id.
 *
 * The store is a `map<string, Json>`; serialising and parsing JSON is taken to
 * give back the same value, and the backend itself never fails.
 */
module Storage {
  import opened Seqs
  import opened Types

  /** A JSON value as stored. Numbers are integers in this model. */
  datatype Json =
    | JNull
    | JBool(b: bool)
    | JNum(n: int)
    | JStr(s: string)
    | JArr(items: seq<Json>)
    | JObj(fields: map<string, Json>)

  datatype StorageError =
    | NotFound(message: string)    // the `throw new Error('... not found')` of the update methods
    | NotAList(key: string)        // a truthy stored value that has no `push`/`findIndex`/`filter`
    | NotAnObject(key: string)     // a truthy stored preferences value that is not an object

  datatype Outcome = Pass | Fail(error: StorageError)

  const UserDataKey := "@CoffeeAI:userData"
  const BrewingRecordsKey := "@CoffeeAI:brewingRecords"
  const TastingRecordsKey := "@CoffeeAI:tastingRecords"
  const CoffeeBeansKey := "@CoffeeAI:coffeeBeans"
  const UserPreferencesKey := "@CoffeeAI:userPreferences"

  /** The five keys are pairwise distinct, so writing one never touches another. */
  lemma KeysDistinct()
    ensures |{UserDataKey, BrewingRecordsKey, TastingRecordsKey, CoffeeBeansKey,
              UserPreferencesKey}| == 5
  {
  }

  /** JavaScript truthiness: `null`, `false`, `0` and `""` are falsy. */
  predicate Truthy(v: Json)
    ensures v.JArr? || v.JObj? ==> Truthy(v)
    ensures v.JNull? ==> !Truthy(v)
  {
    match v
    case JNull => false
    case JBool(b) => b
    case JNum(n) => n != 0
    case JStr(s) => s != ""
    case _ => true
  }

  /** `record.id === id`: only an object whose `id` field is that string matches. */
  predicate HasId(record: Json, id: string)
    ensures HasId(record, id) ==> record.JObj?
    ensures record.JObj? && "id" in record.fields && !record.fields["id"].JStr? ==> !HasId(record, id)
  {
    record.JObj? && "id" in record.fields && record.fields["id"] == JStr(id)
  }

  function LacksId(id: string): Json -> bool {
    record => !HasId(record, id)
  }

  /** `(await getItem(key)) || []` followed by a list operation: a falsy value reads as
      the empty list, an array as its items, anything else fails. */
  function ListOrEmpty(v: Json, key: string): (r: Result)
    ensures !Truthy(v) ==> r == ListOk([])
    ensures v.JArr? ==> r == ListOk(v.items)
    ensures Truthy(v) && !v.JArr? ==> r == ListErr(NotAList(key))
  {
    if !Truthy(v) then ListOk([]) else if v.JArr? then ListOk(v.items) else ListErr(NotAList(key))
  }

  datatype Result = ListOk(list: seq<Json>) | ListErr(error: StorageError)

  /** The `filter` of the delete methods: every record with the id removed. */
  function RemoveId(records: seq<Json>, id: string): seq<Json> {
    Filter(records, LacksId(id))
  }

  /** Deletion keeps the other records in order and drops exactly the ones with the id. */
  lemma RemoveIdKeepsOthers(records: seq<Json>, id: string, x: Json)
    ensures IsSubsequence(RemoveId(records, id), records)
    ensures x in RemoveId(records, id) <==> x in records && !HasId(x, id)
  {
    FilterIsSubsequence(records, LacksId(id));
    FilterMembership(records, LacksId(id), x);
  }

  /** Deleting twice is deleting once, and deleting an id nobody has changes nothing. */
  lemma RemoveIdIdempotent(records: seq<Json>, id: string)
    ensures RemoveId(RemoveId(records, id), id) == RemoveId(records, id)
    ensures (forall x :: x in records ==> !HasId(x, id)) ==> RemoveId(records, id) == records
  {
    FilterIdempotent(records, LacksId(id));
    if forall x :: x in records ==> !HasId(x, id) {
      FilterAllPass(records, LacksId(id));
    }
  }

  /** `findIndex(record => record.id === id)`: the first index with the id, or -1. */
  method FindIndex(records: seq<Json>, id: string) returns (index: int)
    ensures -1 <= index < |records|
    ensures index == -1 <==> forall k :: 0 <= k < |records| ==> !HasId(records[k], id)
    ensures index >= 0 ==> HasId(records[index], id) &&
                           forall k :: 0 <= k < index ==> !HasId(records[k], id)
  {
    index := 0;
    while index < |records|
      invariant 0 <= index <= |records|
      invariant forall k :: 0 <= k < index ==> !HasId(records[k], id)
    {
      if HasId(records[index], id) {
        return;
      }
      index := index + 1;
    }
    index := -1;
  }

  /** `filter(record => record.id !== id)`, element by element. */
  method FilterOutId(records: seq<Json>, id: string) returns (kept: seq<Json>)
    ensures kept == RemoveId(records, id)
  {
    kept := [];
    var i := |records|;
    while i > 0
      invariant 0 <= i <= |records|
      invariant kept == RemoveId(records[i..], id)
    {
      i := i - 1;
      assert records[i..] == [records[i]] + records[i + 1..];
      if !HasId(records[i], id) {
        kept := [records[i]] + kept;
      }
    }
    assert records[0..] == records;
  }

  /** The store the service reads and writes. */
  class AsyncStorageService {
    var store: map<string, Json>

    constructor ()
      ensures store == map[]
    {
      store := map[];
    }

    method SetItem(key: string, value: Json)
      modifies this
      ensures store == old(store)[key := value]
    {
      store := store[key := value];
    }

    /** `getItem`: the stored value, or `null` when the key is absent. */
    method GetItem(key: string) returns (value: Json)
      ensures key in store ==> value == store[key]
      ensures key !in store ==> value == JNull
    {
      value := if key in store then store[key] else JNull;
    }

    method RemoveItem(key: string)
      modifies this
      ensures store == old(store) - {key}
    {
      store := store - {key};
    }

    method Clear()
      modifies this
      ensures store == map[]
    {
      store := map[];
    }

    method SaveUserData(userData: Json)
      modifies this
      ensures store == old(store)[UserDataKey := userData]
    {
      SetItem(UserDataKey, userData);
    }

    method GetUserData() returns (userData: Json)
      ensures UserDataKey !in store ==> userData == JNull
      ensures UserDataKey in store ==> userData == store[UserDataKey]
    {
      userData := GetItem(UserDataKey);
    }

    method ClearUserData()
      modifies this
      ensures store == old(store) - {UserDataKey}
    {
      RemoveItem(UserDataKey);
    }

    /** `(await getItem(key)) || []`, with the list operation's failure on a value that
        is truthy but not an array. */
    method ReadList(key: string) returns (r: Result)
      ensures r == ListAt(store, key)
    {
      var v := GetItem(key);
      r := ListOrEmpty(v, key);
    }

    /** The body of the three `save*` methods: push one record and write the list back. */
    method AppendRecord(key: string, record: Json) returns (outcome: Outcome)
      modifies this
      ensures Stored(outcome, store) == AppendSpec(old(store), key, record)
    {
      var existing := ReadList(key);
      if existing.ListErr? {
        return Fail(existing.error);
      }
      SetItem(key, JArr(existing.list + [record]));
      outcome := Pass;
    }

    /** The body of the three `update*` methods: overwrite the first record with the id,
        or throw `notFound` without writing. */
    method ReplaceRecord(key: string, id: string, updated: Json, notFound: string)
      returns (outcome: Outcome)
      modifies this
      ensures Stored(outcome, store) == ReplaceSpec(old(store), key, id, updated, notFound)
    {
      var existing := ReadList(key);
      if existing.ListErr? {
        return Fail(existing.error);
      }
      var index := FindIndex(existing.list, id);
      if index != -1 {
        ReplaceFirstAt(existing.list, id, updated, index);
        SetItem(key, JArr(existing.list[index := updated]));
        return Pass;
      }
      ReplaceFirstAbsent(existing.list, id, updated);
      outcome := Fail(NotFound(notFound));
    }

    /** The body of the three `delete*` methods: keep the records without the id. */
    method DeleteRecords(key: string, id: string) returns (outcome: Outcome)
      modifies this
      ensures Stored(outcome, store) == DeleteSpec(old(store), key, id)
    {
      var existing := ReadList(key);
      if existing.ListErr? {
        return Fail(existing.error);
      }
      var kept := FilterOutId(existing.list, id);
      SetItem(key, JArr(kept));
      outcome := Pass;
    }

    method SaveBrewingRecord(record: Json) returns (outcome: Outcome)
      modifies this
      ensures Stored(outcome, store) == AppendSpec(old(store), BrewingRecordsKey, record)
    {
      outcome := AppendRecord(BrewingRecordsKey, record);
    }

    method GetBrewingRecords() returns (records: Json)
      ensures records == Lookup(store, BrewingRecordsKey)
    {
      records := GetItem(BrewingRecordsKey);
    }

    method UpdateBrewingRecord(recordId: string, updatedRecord: Json) returns (outcome: Outcome)
      modifies this
      ensures Stored(outcome, store) ==
              ReplaceSpec(old(store), BrewingRecordsKey, recordId, updatedRecord, "Brewing record not found")
    {
      outcome := ReplaceRecord(BrewingRecordsKey, recordId, updatedRecord, "Brewing record not found");
    }

    method DeleteBrewingRecord(recordId: string) returns (outcome: Outcome)
      modifies this
      ensures Stored(outcome, store) == DeleteSpec(old(store), BrewingRecordsKey, recordId)
    {
      outcome := DeleteRecords(BrewingRecordsKey, recordId);
    }

    method SaveTastingRecord(record: Json) returns (outcome: Outcome)
      modifies this
      ensures Stored(outcome, store) == AppendSpec(old(store), TastingRecordsKey, record)
    {
      outcome := AppendRecord(TastingRecordsKey, record);
    }

    method GetTastingRecords() returns (records: Json)
      ensures records == Lookup(store, TastingRecordsKey)
    {
      records := GetItem(TastingRecordsKey);
    }

    method UpdateTastingRecord(recordId: string, updatedRecord: Json) returns (outcome: Outcome)
      modifies this
      ensures Stored(outcome, store) ==
              ReplaceSpec(old(store), TastingRecordsKey, recordId, updatedRecord, "Tasting record not found")
    {
      outcome := ReplaceRecord(TastingRecordsKey, recordId, updatedRecord, "Tasting record not found");
    }

    method DeleteTastingRecord(recordId: string) returns (outcome: Outcome)
      modifies this
      ensures Stored(outcome, store) == DeleteSpec(old(store), TastingRecordsKey, recordId)
    {
      outcome := DeleteRecords(TastingRecordsKey, recordId);
    }

    method SaveCoffeeBean(bean: Json) returns (outcome: Outcome)
      modifies this
      ensures Stored(outcome, store) == AppendSpec(old(store), CoffeeBeansKey, bean)
    {
      outcome := AppendRecord(CoffeeBeansKey, bean);
    }

    method GetCoffeeBeans() returns (beans: Json)
      ensures beans == Lookup(store, CoffeeBeansKey)
    {
      beans := GetItem(CoffeeBeansKey);
    }

    method UpdateCoffeeBean(beanId: string, updatedBean: Json) returns (outcome: Outcome)
      modifies this
      ensures Stored(outcome, store) ==
              ReplaceSpec(old(store), CoffeeBeansKey, beanId, updatedBean, "Coffee bean not found")
    {
      outcome := ReplaceRecord(CoffeeBeansKey, beanId, updatedBean, "Coffee bean not found");
    }

    method DeleteCoffeeBean(beanId: string) returns (outcome: Outcome)
      modifies this
      ensures Stored(outcome, store) == DeleteSpec(old(store), CoffeeBeansKey, beanId)
    {
      outcome := DeleteRecords(CoffeeBeansKey, beanId);
    }

    method SaveUserPreferences(preferences: Json)
      modifies this
      ensures store == old(store)[UserPreferencesKey := preferences]
    {
      SetItem(UserPreferencesKey, preferences);
    }

    method GetUserPreferences() returns (preferences: Json)
      ensures preferences == Lookup(store, UserPreferencesKey)
    {
      preferences := GetItem(UserPreferencesKey);
    }

    /** `updateUserPreference(key, value)`: set one field of the preferences object,
        starting from `{}` when the stored preferences are absent or falsy. */
    method UpdateUserPreference(key: string, value: Json) returns (outcome: Outcome)
      modifies this
      ensures Stored(outcome, store) == PreferenceSpec(old(store), key, value)
    {
      var existing := GetItem(UserPreferencesKey);
      if !Truthy(existing) {
        existing := JObj(map[]);
      }
      if !existing.JObj? {
        return Fail(NotAnObject(UserPreferencesKey));
      }
      SetItem(UserPreferencesKey, JObj(existing.fields[key := value]));
      outcome := Pass;
    }

    /** `exportAllData`: the five sections (null when absent) and the export date. */
    method ExportAllData(exportDate: string) returns (data: map<string, Json>)
      ensures data == Exported(store, exportDate)
    {
      var userData := GetItem(UserDataKey);
      var brewing := GetItem(BrewingRecordsKey);
      var tasting := GetItem(TastingRecordsKey);
      var beans := GetItem(CoffeeBeansKey);
      var preferences := GetItem(UserPreferencesKey);
      data := map["userData" := userData, "brewingRecords" := brewing,
                  "tastingRecords" := tasting, "coffeeBeans" := beans,
                  "userPreferences" := preferences, "exportDate" := JStr(exportDate)];
    }

    /** `importAllData`: each truthy section overwrites its key, in this order. */
    method ImportAllData(data: map<string, Json>)
      modifies this
      ensures store == Imported(old(store), data)
    {
      if Present(data, "userData") {
        SaveUserData(data["userData"]);
      }
      if Present(data, "brewingRecords") {
        SetItem(BrewingRecordsKey, data["brewingRecords"]);
      }
      if Present(data, "tastingRecords") {
        SetItem(TastingRecordsKey, data["tastingRecords"]);
      }
      if Present(data, "coffeeBeans") {
        SetItem(CoffeeBeansKey, data["coffeeBeans"]);
      }
      if Present(data, "userPreferences") {
        SaveUserPreferences(data["userPreferences"]);
      }
    }
  }

  /** `getItem` on a store value: absent keys read as `null`. */
  function Lookup(store: map<string, Json>, key: string): Json {
    if key in store then store[key] else JNull
  }

  /** The list a collection key holds, as the list methods see it. */
  function ListAt(store: map<string, Json>, key: string): Result {
    ListOrEmpty(Lookup(store, key), key)
  }

  /** What a writing operation reports and the store it leaves. */
  datatype Stored = Stored(outcome: Outcome, store: map<string, Json>)

  /** `save*`: the list under `key` with the record pushed on. On failure nothing is
      written; on success the key holds a list ending in the record. */
  function AppendSpec(store: map<string, Json>, key: string, record: Json): (r: Stored)
    ensures r.outcome.Fail? ==> r.store == store && ListAt(store, key).ListErr?
    ensures r.outcome.Pass? ==>
              key in r.store && r.store[key].JArr? && |r.store[key].items| >= 1 &&
              r.store[key].items[|r.store[key].items| - 1] == record
    ensures r.store.Keys <= store.Keys + {key}
  {
    match ListAt(store, key)
    case ListErr(e) => Stored(Fail(e), store)
    case ListOk(list) => Stored(Pass, store[key := JArr(list + [record])])
  }

  /** `update*`: the list under `key` with its first record carrying `id` overwritten.
      On failure nothing is written; on success the list keeps its length. */
  function ReplaceSpec(store: map<string, Json>, key: string, id: string, updated: Json,
                       notFound: string): (r: Stored)
    ensures r.outcome.Fail? ==> r.store == store
    ensures r.outcome.Pass? ==>
              ListAt(store, key).ListOk? && key in r.store && r.store[key].JArr? &&
              |r.store[key].items| == |ListAt(store, key).list| && updated in r.store[key].items
    ensures r.store.Keys <= store.Keys + {key}
  {
    match ListAt(store, key)
    case ListErr(e) => Stored(Fail(e), store)
    case ListOk(list) =>
      match ReplaceFirst(list, id, updated)
      case None => Stored(Fail(NotFound(notFound)), store)
      case Some(replaced) => Stored(Pass, store[key := JArr(replaced)])
  }

  /** `delete*`: the list under `key` without the records carrying `id`. On failure
      nothing is written; on success no record with the id is left and the list does
      not grow. */
  function DeleteSpec(store: map<string, Json>, key: string, id: string): (r: Stored)
    ensures r.outcome.Fail? ==> r.store == store
    ensures r.outcome.Pass? ==>
              ListAt(store, key).ListOk? && key in r.store && r.store[key].JArr? &&
              |r.store[key].items| <= |ListAt(store, key).list| &&
              forall x :: x in r.store[key].items ==> !HasId(x, id)
    ensures r.store.Keys <= store.Keys + {key}
  {
    match ListAt(store, key)
    case ListErr(e) => Stored(Fail(e), store)
    case ListOk(list) => Stored(Pass, store[key := JArr(RemoveId(list, id))])
  }

  /** `updateUserPreference`: the preferences object with one field set. It fails, and
      writes nothing, only on a stored value that is truthy but not an object. */
  function PreferenceSpec(store: map<string, Json>, key: string, value: Json): (r: Stored)
    ensures r.outcome.Fail? <==>
              Truthy(Lookup(store, UserPreferencesKey)) && !Lookup(store, UserPreferencesKey).JObj?
    ensures r.outcome.Fail? ==> r.store == store
    ensures r.outcome.Pass? ==>
              UserPreferencesKey in r.store && r.store[UserPreferencesKey].JObj? &&
              key in r.store[UserPreferencesKey].fields &&
              r.store[UserPreferencesKey].fields[key] == value
  {
    var existing := Lookup(store, UserPreferencesKey);
    if !Truthy(existing) then Stored(Pass, store[UserPreferencesKey := JObj(map[key := value])])
    else if existing.JObj? then
      Stored(Pass, store[UserPreferencesKey := JObj(existing.fields[key := value])])
    else Stored(Fail(NotAnObject(UserPreferencesKey)), store)
  }

  /** Overwriting the first record that has the id; `None` when no record has it. */
  function ReplaceFirst(records: seq<Json>, id: string, updated: Json): (r: Option<seq<Json>>)
    ensures r.Some? ==> |r.value| == |records| && updated in r.value
  {
    if records == [] then None
    else if HasId(records[0], id) then Some([updated] + records[1..])
    else match ReplaceFirst(records[1..], id, updated)
         case None => None
         case Some(rest) => Some([records[0]] + rest)
  }

  /** When `index` is the first position with the id, replacing the first match writes
      exactly that position. */
  lemma {:induction false} ReplaceFirstAt(records: seq<Json>, id: string, updated: Json, index: nat)
    requires index < |records| && HasId(records[index], id)
    requires forall k :: 0 <= k < index ==> !HasId(records[k], id)
    ensures ReplaceFirst(records, id, updated) == Some(records[index := updated])
  {
    if index > 0 {
      ReplaceFirstAt(records[1..], id, updated, index - 1);
      assert records[index := updated] == [records[0]] + records[1..][index - 1 := updated];
    } else {
      assert records[index := updated] == [updated] + records[1..];
    }
  }

  lemma {:induction false} ReplaceFirstAbsent(records: seq<Json>, id: string, updated: Json)
    requires forall k :: 0 <= k < |records| ==> !HasId(records[k], id)
    ensures ReplaceFirst(records, id, updated) == None
  {
    if records != [] {
      ReplaceFirstAbsent(records[1..], id, updated);
    }
  }

  /** Replacing by id succeeds exactly when some record has the id; it then keeps the
      length and every position except the first one with the id. */
  lemma ReplaceFirstSpec(records: seq<Json>, id: string, updated: Json)
    ensures ReplaceFirst(records, id, updated).None? <==>
            forall k :: 0 <= k < |records| ==> !HasId(records[k], id)
    ensures ReplaceFirst(records, id, updated).Some? ==>
            var r := ReplaceFirst(records, id, updated).value;
            |r| == |records| &&
            exists index :: 0 <= index < |records| && HasId(records[index], id) &&
              (forall k :: 0 <= k < index ==> !HasId(records[k], id)) &&
              r[index] == updated &&
              forall k :: 0 <= k < |records| && k != index ==> r[k] == records[k]
  {
    if exists k :: 0 <= k < |records| && HasId(records[k], id) {
      var index := 0;
      while !HasId(records[index], id)
        invariant 0 <= index < |records|
        invariant exists k :: index <= k < |records| && HasId(records[k], id)
        invariant forall k :: 0 <= k < index ==> !HasId(records[k], id)
        decreases |records| - index
      {
        index := index + 1;
      }
      ReplaceFirstAt(records, id, updated, index);
    } else {
      ReplaceFirstAbsent(records, id, updated);
    }
  }

  /** Every writing operation either fails and leaves the store as it was, or writes
      its own key and no other. */
  lemma WritesOnlyOwnKey(store: map<string, Json>, key: string, id: string, record: Json,
                         notFound: string, k: string)
    requires k != key
    ensures var r := AppendSpec(store, key, record);
            (r.outcome.Fail? ==> r.store == store) && Lookup(r.store, k) == Lookup(store, k)
    ensures var r := ReplaceSpec(store, key, id, record, notFound);
            (r.outcome.Fail? ==> r.store == store) && Lookup(r.store, k) == Lookup(store, k)
    ensures var r := DeleteSpec(store, key, id);
            (r.outcome.Fail? ==> r.store == store) && Lookup(r.store, k) == Lookup(store, k)
    ensures k != UserPreferencesKey ==>
              var r := PreferenceSpec(store, id, record);
              (r.outcome.Fail? ==> r.store == store) && Lookup(r.store, k) == Lookup(store, k)
  {
  }

  /** A collection key that was never written reads as the empty list, so the first
      save stores a one-record list. */
  lemma AbsentIsEmpty(store: map<string, Json>, key: string, record: Json)
    requires key !in store
    ensures Lookup(store, key) == JNull
    ensures ListAt(store, key) == ListOk([])
    ensures AppendSpec(store, key, record) == Stored(Pass, store[key := JArr([record])])
  {
    assert [] + [record] == [record];
  }

  /** Saving appends the record at the end of the stored list. */
  lemma AppendAddsAtEnd(store: map<string, Json>, key: string, record: Json)
    requires ListAt(store, key).ListOk?
    ensures var r := AppendSpec(store, key, record);
            r.outcome == Pass && ListAt(r.store, key) == ListOk(ListAt(store, key).list + [record])
  {
  }

  /** Updating an id that no record of a readable list has throws "not found" and
      writes nothing; updating a present one keeps the list length. */
  lemma UpdateOutcome(store: map<string, Json>, key: string, id: string, updated: Json,
                      notFound: string)
    requires ListAt(store, key).ListOk?
    ensures var list := ListAt(store, key).list;
            var r := ReplaceSpec(store, key, id, updated, notFound);
            ((forall k :: 0 <= k < |list| ==> !HasId(list[k], id)) <==>
               r == Stored(Fail(NotFound(notFound)), store)) &&
            (r.outcome.Pass? ==> ListAt(r.store, key).ListOk? &&
                                 |ListAt(r.store, key).list| == |list|)
  {
    ReplaceFirstSpec(ListAt(store, key).list, id, updated);
  }

  /** Deleting keeps the other records in order, and deleting again changes nothing. */
  lemma DeleteOutcome(store: map<string, Json>, key: string, id: string)
    requires ListAt(store, key).ListOk?
    ensures var r := DeleteSpec(store, key, id);
            r.outcome == Pass && ListAt(r.store, key) == ListOk(RemoveId(ListAt(store, key).list, id)) &&
            DeleteSpec(r.store, key, id) == r
  {
    var list := ListAt(store, key).list;
    RemoveIdIdempotent(list, id);
    var r := DeleteSpec(store, key, id);
    assert Lookup(r.store, key) == JArr(RemoveId(list, id));
    if RemoveId(list, id) == [] {
      assert Truthy(JArr([]));
    }
  }

  /** Setting one preference changes that field only. */
  lemma PreferenceSetsOneField(store: map<string, Json>, key: string, value: Json, other: string)
    requires other != key
    requires Lookup(store, UserPreferencesKey).JObj?
    ensures var r := PreferenceSpec(store, key, value);
            var after := Lookup(r.store, UserPreferencesKey);
            var before := Lookup(store, UserPreferencesKey);
            r.outcome == Pass && after.JObj? && key in after.fields && after.fields[key] == value &&
            (other in after.fields <==> other in before.fields) &&
            (other in before.fields ==> after.fields[other] == before.fields[other])
  {
  }

  /** The object `exportAllData` builds from a store: the five sections and the date,
      an absent key exported as `null`. */
  function Exported(store: map<string, Json>, exportDate: string): (data: map<string, Json>)
    ensures data.Keys == {"userData", "brewingRecords", "tastingRecords", "coffeeBeans",
                          "userPreferences", "exportDate"}
    ensures data["exportDate"] == JStr(exportDate)
    ensures data["userData"] == Lookup(store, UserDataKey)
    ensures data["brewingRecords"] == Lookup(store, BrewingRecordsKey)
    ensures data["tastingRecords"] == Lookup(store, TastingRecordsKey)
    ensures data["coffeeBeans"] == Lookup(store, CoffeeBeansKey)
    ensures data["userPreferences"] == Lookup(store, UserPreferencesKey)
    ensures UserPreferencesKey !in store ==> data["userPreferences"] == JNull
  {
    map["userData" := Lookup(store, UserDataKey),
        "brewingRecords" := Lookup(store, BrewingRecordsKey),
        "tastingRecords" := Lookup(store, TastingRecordsKey),
        "coffeeBeans" := Lookup(store, CoffeeBeansKey),
        "userPreferences" := Lookup(store, UserPreferencesKey),
        "exportDate" := JStr(exportDate)]
  }

  /** One `if (data.section) setItem(key, data.section)` of `importAllData`. */
  function ImportSection(store: map<string, Json>, data: map<string, Json>, section: string,
                         key: string): (after: map<string, Json>)
    ensures forall k :: Lookup(after, k) ==
                          if k == key && Present(data, section) then data[section] else Lookup(store, k)
  {
    if Present(data, section) then store[key := data[section]] else store
  }

  /** The store after `importAllData(data)`: it never loses a key, gains at most the five,
      and an empty import object changes nothing. */
  function Imported(store: map<string, Json>, data: map<string, Json>): (after: map<string, Json>)
    ensures store.Keys <= after.Keys
    ensures after.Keys <= store.Keys + {UserDataKey, BrewingRecordsKey, TastingRecordsKey,
                                        CoffeeBeansKey, UserPreferencesKey}
    ensures data == map[] ==> after == store
  {
    var s1 := ImportSection(store, data, "userData", UserDataKey);
    var s2 := ImportSection(s1, data, "brewingRecords", BrewingRecordsKey);
    var s3 := ImportSection(s2, data, "tastingRecords", TastingRecordsKey);
    var s4 := ImportSection(s3, data, "coffeeBeans", CoffeeBeansKey);
    ImportSection(s4, data, "userPreferences", UserPreferencesKey)
  }

  /** Whether `importAllData` writes this section. */
  predicate Present(data: map<string, Json>, section: string) {
    section in data && Truthy(data[section])
  }

  /** Importing leaves every key other than the five as it was. */
  lemma ImportedKeepsOtherKeys(store: map<string, Json>, data: map<string, Json>)
    ensures forall k :: k !in {UserDataKey, BrewingRecordsKey, TastingRecordsKey, CoffeeBeansKey,
                               UserPreferencesKey} ==>
              (k in Imported(store, data) <==> k in store) &&
              (k in store ==> Imported(store, data)[k] == store[k])
  {
  }

  /** Importing touches only the five keys; each truthy section replaces its key and
      each missing or falsy one leaves the stored value as it was. */
  lemma ImportedSections(store: map<string, Json>, data: map<string, Json>)
    ensures forall k :: k !in {UserDataKey, BrewingRecordsKey, TastingRecordsKey, CoffeeBeansKey,
                               UserPreferencesKey} ==>
              (k in Imported(store, data) <==> k in store) &&
              (k in store ==> Imported(store, data)[k] == store[k])
    ensures Lookup(Imported(store, data), UserDataKey) ==
            if Present(data, "userData") then data["userData"] else Lookup(store, UserDataKey)
    ensures Lookup(Imported(store, data), BrewingRecordsKey) ==
            if Present(data, "brewingRecords") then data["brewingRecords"]
            else Lookup(store, BrewingRecordsKey)
    ensures Lookup(Imported(store, data), TastingRecordsKey) ==
            if Present(data, "tastingRecords") then data["tastingRecords"]
            else Lookup(store, TastingRecordsKey)
    ensures Lookup(Imported(store, data), CoffeeBeansKey) ==
            if Present(data, "coffeeBeans") then data["coffeeBeans"] else Lookup(store, CoffeeBeansKey)
    ensures Lookup(Imported(store, data), UserPreferencesKey) ==
            if Present(data, "userPreferences") then data["userPreferences"]
            else Lookup(store, UserPreferencesKey)
  {
    ImportedKeepsOtherKeys(store, data);
    assert |UserDataKey| == 18 && |CoffeeBeansKey| == 21 && |UserPreferencesKey| == 25;
    assert |BrewingRecordsKey| == 24 && |TastingRecordsKey| == 24;
    assert BrewingRecordsKey[10] != TastingRecordsKey[10];
    var s1 := ImportSection(store, data, "userData", UserDataKey);
    var s2 := ImportSection(s1, data, "brewingRecords", BrewingRecordsKey);
    var s3 := ImportSection(s2, data, "tastingRecords", TastingRecordsKey);
    var s4 := ImportSection(s3, data, "coffeeBeans", CoffeeBeansKey);
    assert Imported(store, data) == ImportSection(s4, data, "userPreferences", UserPreferencesKey);
  }

  /** Importing what was just exported leaves the store exactly as it was: present
      truthy values are written back unchanged and falsy or absent ones are skipped. */
  lemma ImportExportRoundTrip(store: map<string, Json>, exportDate: string)
    ensures Imported(store, Exported(store, exportDate)) == store
  {
    var data := Exported(store, exportDate);
    forall section, key | Present(data, section) && data[section] == Lookup(store, key)
      ensures ImportSection(store, data, section, key) == store
    {
      assert key in store;
    }
  }

  /** Appending the record then deleting its id removes it along with every earlier
      record carrying the same id, and keeps the rest. */
  lemma AppendThenDelete(records: seq<Json>, record: Json, id: string)
    requires HasId(record, id)
    ensures RemoveId(records + [record], id) == RemoveId(records, id)
  {
    FilterConcat(records, [record], LacksId(id));
  }
}
