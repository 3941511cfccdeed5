/** The record-table cache (`DbCache`): one table named after the namespace
    inside a transactional record store, keyed by the primary-key path the
    schema declares. Each operation is one atomic transition; a rejected
    transaction leaves the table as it was. */
module DbCache {
  import opened Outcomes
  import opened Json
  import Schema

  /** The rejection reasons the source uses. */
  const KeyMessage := "Please input correct primaryKey"
  const DataMessage := "Please add correct data"

  /** The field `update` stamps with the key it was given, and the field it
      stamps with the current time. */
  const PrimaryKeyName := "primaryKey"
  const TimeName := "t"

  type Record = Fields

  /** The stored records by primary key. */
  type Table = map<string, Record>

  /** A table cache: its namespace, its declared data keys and the table. */
  datatype Cache = Cache(namespace: string, dataKeys: seq<string>, table: Table)

  /** The constructor: open (or create) the store named after the namespace,
      whose table already holds `stored`, declaring the schema
      `dataKeys.join(', ')`. The table is keyed by the first data key, and
      has no key path when there are no data keys. */
  function Open(namespace: string, dataKeys: seq<string>, stored: Table): (c: Cache)
    ensures c.namespace == namespace && c.dataKeys == dataKeys && c.table == stored
    ensures |dataKeys| > 0 && Schema.PlainName(dataKeys[0]) ==> KeyField(c) == Some(dataKeys[0])
    ensures dataKeys == [] ==> KeyField(c) == None
  {
    Schema.PrimaryKeyIsFirstDataKey(dataKeys);
    Cache(namespace, dataKeys, stored)
  }

  /** The primary-key path of the table. */
  function KeyField(c: Cache): Option<string> {
    Schema.PrimaryKeyField(c.dataKeys)
  }

  /** The primary key of a record: the string found at the key path. A table
      without a key path, a missing field or a non-string value yields none. */
  function KeyOf(keyField: Option<string>, rec: Record): Option<string> {
    if keyField.Some? && keyField.value in rec && rec[keyField.value].Str?
    then Some(rec[keyField.value].s)
    else None
  }

  /** Every record is stored under its own primary key. */
  predicate WellKeyed(keyField: Option<string>, table: Table) {
    forall k :: k in table ==> KeyOf(keyField, table[k]) == Some(k)
  }

  /** The engine's insert (`Table.add`): it fails when the record has no
      primary key or when its key is already taken; otherwise the record is
      stored under its key, which is the result. */
  function Insert(keyField: Option<string>, table: Table, rec: Record): (r: Step<string, Table>)
    ensures r.result.Ok? <==> KeyOf(keyField, rec).Some? && KeyOf(keyField, rec).value !in table
    ensures r.result.Err? ==> r.state == table && r.result.error == StructuralFailure
    ensures r.result.Ok? ==> r.result.value == KeyOf(keyField, rec).value
    ensures r.result.Ok? ==> r.state.Keys == table.Keys + {r.result.value}
    ensures r.result.Ok? ==> r.state[r.result.value] == rec
    ensures r.result.Ok? ==> forall k :: k in table ==> r.state[k] == table[k]
  {
    match KeyOf(keyField, rec)
    case None => Step(Err(StructuralFailure), table)
    case Some(k) =>
      if k in table then Step(Err(StructuralFailure), table)
      else Step(Ok(k), table[k := rec])
  }

  /** `addInTable`: insert; if that fails, wipe the table and try again.
      The source retries without bound; here at most `retries` wipes happen,
      and a failure with no retry left is a StructuralFailure that leaves the
      table as the last attempt found it. */
  function AddInTable(keyField: Option<string>, table: Table, rec: Record, retries: nat): (r: Step<string, Table>)
    decreases retries
    ensures r.result.Ok? <==>
      KeyOf(keyField, rec).Some? && (KeyOf(keyField, rec).value !in table || retries > 0)
    ensures r.result.Ok? ==> r.result.value == KeyOf(keyField, rec).value
    ensures r.result.Ok? && r.result.value !in table ==> r.state == table[r.result.value := rec]
    ensures r.result.Ok? && r.result.value in table ==> r.state == map[r.result.value := rec]
    ensures r.result.Err? ==> r.result.error == StructuralFailure
    ensures r.result.Err? ==> r.state == (if retries == 0 then table else map[])
  {
    var first := Insert(keyField, table, rec);
    if first.result.Ok? then first
    else if retries == 0 then first
    else AddInTable(keyField, map[], rec, retries - 1)
  }

  /** `get(primaryKey)`: an empty key is rejected; otherwise the record stored
      under the key, or none. */
  function Get(c: Cache, key: string): (r: Result<Option<Record>>)
    ensures key == "" <==> r == Err(InvalidArgument(KeyMessage))
    ensures key != "" ==> (r == Ok(None) <==> key !in c.table)
    ensures key != "" && key in c.table ==> r == Ok(Some(c.table[key]))
  {
    if key == "" then Err(InvalidArgument(KeyMessage))
    else if key in c.table then Ok(Some(c.table[key]))
    else Ok(None)
  }

  /** `add(values)`: empty values are rejected; otherwise `values` goes
      through the insert path and the result is its primary key. */
  function Add(c: Cache, values: Record, retries: nat): (r: Step<string, Cache>)
    ensures values == map[] ==> r == Step(Err(InvalidArgument(DataMessage)), c)
    ensures r.result.Err? ==> r.state == c
    ensures r.state.namespace == c.namespace && r.state.dataKeys == c.dataKeys
    ensures r.result.Ok? <==> values != map[] && AddInTable(KeyField(c), c.table, values, retries).result.Ok?
    ensures r.result.Ok? ==> Some(r.result.value) == KeyOf(KeyField(c), values)
    ensures r.result.Ok? ==> r.result.value in r.state.table && r.state.table[r.result.value] == values
    ensures r.result.Ok? && r.result.value !in c.table ==>
      forall k :: k in c.table ==> k in r.state.table && r.state.table[k] == c.table[k]
    ensures r.result.Ok? && r.result.value in c.table ==> r.state.table == map[r.result.value := values]
    ensures r.result.Ok? ==> r.state.table == AddInTable(KeyField(c), c.table, values, retries).state
    ensures values != map[] && r.result.Err? ==> r.result.error == StructuralFailure
  {
    if values == map[] then Step(Err(InvalidArgument(DataMessage)), c)
    else
      var inserted := AddInTable(KeyField(c), c.table, values, retries);
      if inserted.result.Err? then Step(Err(inserted.result.error), c)
      else Step(Ok(inserted.result.value), c.(table := inserted.state))
  }

  /** `delete(primaryKey)`: an empty key is rejected; otherwise the record
      under the key is removed and the call resolves `true`. */
  function Delete(c: Cache, key: string): (r: Step<bool, Cache>)
    ensures key == "" ==> r == Step(Err(InvalidArgument(DataMessage)), c)
    ensures key != "" ==> r.result == Ok(true)
    ensures r.state.namespace == c.namespace && r.state.dataKeys == c.dataKeys
    ensures key != "" ==> r.state.table.Keys == c.table.Keys - {key}
    ensures forall k :: k in r.state.table ==> k in c.table && r.state.table[k] == c.table[k]
  {
    if key == "" then Step(Err(InvalidArgument(DataMessage)), c)
    else Step(Ok(true), c.(table := c.table - {key}))
  }

  /** The record `update` writes: `{ primaryKey, ...values, t: now }`. */
  function Stamp(values: Record, key: string, now: int): (rec: Record)
    ensures rec.Keys == values.Keys + {PrimaryKeyName, TimeName}
    ensures rec[TimeName] == Num(now)
    ensures forall f :: f in values && f != TimeName ==> rec[f] == values[f]
    ensures PrimaryKeyName !in values ==> rec[PrimaryKeyName] == Str(key)
  {
    Spread(Spread(map[PrimaryKeyName := Str(key)], values), map[TimeName := Num(now)])
  }

  /** `update(values, primaryKey)`: empty values or an empty key are
      rejected. A record found under the key has the stamped record merged
      into it (the engine's partial update); otherwise the stamped record goes
      through the insert path. Either way the call resolves `true`. */
  function Update(c: Cache, values: Record, key: string, now: int, retries: nat): (r: Step<bool, Cache>)
    ensures values == map[] || key == "" ==> r == Step(Err(InvalidArgument(DataMessage)), c)
    ensures r.result.Err? ==> r.state == c
    ensures r.result.Ok? ==> r.result.value
    ensures r.state.namespace == c.namespace && r.state.dataKeys == c.dataKeys
    ensures values != map[] && key != "" && key in c.table ==>
      && r.result == Ok(true)
      && r.state.table.Keys == c.table.Keys
      && (forall k :: k in c.table && k != key ==> r.state.table[k] == c.table[k])
      && r.state.table[key].Keys == c.table[key].Keys + values.Keys + {PrimaryKeyName, TimeName}
      && r.state.table[key][TimeName] == Num(now)
      && (forall f :: f in values && f != TimeName ==> r.state.table[key][f] == values[f])
      && (PrimaryKeyName !in values ==> r.state.table[key][PrimaryKeyName] == Str(key))
      && (forall f :: f in c.table[key] && f !in values && f != PrimaryKeyName && f != TimeName ==>
            r.state.table[key][f] == c.table[key][f])
    ensures values != map[] && key != "" && key !in c.table ==>
      var inserted := AddInTable(KeyField(c), c.table, Stamp(values, key, now), retries);
      && (r.result.Ok? <==> inserted.result.Ok?)
      && (r.result.Ok? ==> r.state.table == inserted.state)
      && (r.result.Err? ==> r.result.error == StructuralFailure)
    ensures values != map[] && key != "" && key !in c.table && r.result.Ok? ==>
      var k := KeyOf(KeyField(c), Stamp(values, key, now)).value;
      r.state.table == if k in c.table then map[k := Stamp(values, key, now)]
                       else c.table[k := Stamp(values, key, now)]
  {
    if values == map[] || key == "" then Step(Err(InvalidArgument(DataMessage)), c)
    else if key in c.table then
      Step(Ok(true), c.(table := c.table[key := Spread(c.table[key], Stamp(values, key, now))]))
    else
      var inserted := AddInTable(KeyField(c), c.table, Stamp(values, key, now), retries);
      if inserted.result.Err? then Step(Err(inserted.result.error), c)
      else Step(Ok(true), c.(table := inserted.state))
  }

  /** `clear()`: the whole store is dropped. */
  function Clear(c: Cache): (r: Cache)
    ensures r.namespace == c.namespace && r.dataKeys == c.dataKeys
    ensures r.table == map[]
    ensures forall key :: Get(r, key).Ok? ==> Get(r, key) == Ok(None)
  {
    c.(table := map[])
  }

  /** Round trip: a record added and then fetched by the key `add` resolved
      with comes back unchanged (an empty key cannot be fetched: `get`
      rejects it). */
  lemma AddThenGet(c: Cache, values: Record, retries: nat)
    requires Add(c, values, retries).result.Ok?
    ensures var r := Add(c, values, retries);
      Get(r.state, r.result.value) ==
        if r.result.value == "" then Err(InvalidArgument(KeyMessage)) else Ok(Some(values))
  {
  }

  /** Before any insert a fresh table has nothing under any key. */
  lemma GetOnEmpty(c: Cache, key: string)
    requires c.table == map[]
    requires key != ""
    ensures Get(c, key) == Ok(None)
  {
  }

  /** A deleted record cannot be fetched, and deleting twice is deleting once. */
  lemma DeleteThenGet(c: Cache, key: string)
    requires key != ""
    ensures Get(Delete(c, key).state, key) == Ok(None)
    ensures Delete(Delete(c, key).state, key) == Delete(c, key)
  {
    assert (c.table - {key}) - {key} == c.table - {key};
  }

  /** Self-healing: when the record carries a primary key, one wipe is all
      the insert path ever needs, so any positive retry bound behaves as the
      unbounded source does, and the table ends up holding the new record. */
  lemma RetryOnceSuffices(keyField: Option<string>, table: Table, rec: Record, retries: nat)
    requires KeyOf(keyField, rec).Some?
    requires retries >= 1
    ensures AddInTable(keyField, table, rec, retries) == AddInTable(keyField, table, rec, 1)
    ensures AddInTable(keyField, table, rec, retries).result == Ok(KeyOf(keyField, rec).value)
  {
  }

  /** Divergence of the source: a record without a primary key is never
      inserted, whatever the retry bound, and every retry wipes the table. */
  lemma NoKeyNeverInserts(keyField: Option<string>, table: Table, rec: Record, retries: nat)
    requires KeyOf(keyField, rec).None?
    ensures AddInTable(keyField, table, rec, retries).result == Err(StructuralFailure)
    ensures retries > 0 ==> AddInTable(keyField, table, rec, retries).state == map[]
  {
  }

  /** Upsert on a missing key is `add` of the stamped record, answered with
      `true` instead of the key. */
  lemma UpdateMissingIsAdd(c: Cache, values: Record, key: string, now: int, retries: nat)
    requires values != map[] && key != ""
    requires key !in c.table
    ensures var u := Update(c, values, key, now, retries);
      var a := Add(c, Stamp(values, key, now), retries);
      u.state == a.state && (u.result.Ok? <==> a.result.Ok?)
  {
  }

  /** The stamped record carries the primary key only if the key field is
      `primaryKey` itself or `values` names the key field: when neither holds,
      `update` of a missing key can never insert, and the source's retry loop
      never ends. */
  lemma UpdateMissingWithoutKeyField(c: Cache, values: Record, key: string, now: int, retries: nat)
    requires values != map[] && key != ""
    requires key !in c.table
    requires KeyField(c).Some? && KeyField(c).value != PrimaryKeyName && KeyField(c).value != TimeName
    requires KeyField(c).value !in values
    ensures Update(c, values, key, now, retries) == Step(Err(StructuralFailure), c)
  {
  }

  /** The insert path keeps every record under its own key. */
  lemma AddInTableKeepsWellKeyed(keyField: Option<string>, table: Table, rec: Record, retries: nat)
    requires WellKeyed(keyField, table)
    ensures WellKeyed(keyField, AddInTable(keyField, table, rec, retries).state)
  {
  }

  /** `add`, `delete` and `clear` keep every record under its own key;
      `update` does too unless its values move the key field to another key. */
  lemma OperationsKeepWellKeyed(c: Cache, values: Record, key: string, now: int, retries: nat)
    requires WellKeyed(KeyField(c), c.table)
    ensures WellKeyed(KeyField(c), Add(c, values, retries).state.table)
    ensures WellKeyed(KeyField(c), Delete(c, key).state.table)
    ensures WellKeyed(KeyField(c), Clear(c).table)
    ensures var s := Stamp(values, key, now);
      KeyField(c).None? || KeyField(c).value !in s || s[KeyField(c).value] == Str(key) ==>
        WellKeyed(KeyField(c), Update(c, values, key, now, retries).state.table)
  {
    AddInTableKeepsWellKeyed(KeyField(c), c.table, values, retries);
    AddInTableKeepsWellKeyed(KeyField(c), c.table, Stamp(values, key, now), retries);
  }

  /** The first half of the users scenario: the record `{id: "1", name: "A"}`
      added to an empty table keyed by `id` is stored alone under `"1"`. */
  lemma UsersAdded(retries: nat)
    ensures var c := Open("users", ["id", "name"], map[]);
      var added := Add(c, map["id" := Str("1"), "name" := Str("A")], retries);
      && KeyField(added.state) == Some("id")
      && added.result == Ok("1")
      && added.state.table == map["1" := map["id" := Str("1"), "name" := Str("A")]]
  {
    var c := Open("users", ["id", "name"], map[]);
    assert Schema.PlainName("id") by {
      assert Schema.IsIdentifierChar("id"[0]) && Schema.IsIdentifierChar("id"[1]);
    }
    assert KeyField(c) == Some("id");
    var rec := map["id" := Str("1"), "name" := Str("A")];
    assert KeyOf(KeyField(c), rec) == Some("1");
  }

  /** A users table keyed by `id`: a record added is read back whole, and an
      upsert of its name keeps `id`, replaces `name`, and adds `primaryKey`
      and the timestamp. */
  lemma {:induction false} UsersScenario(now: int, retries: nat)
    ensures var c := Open("users", ["id", "name"], map[]);
      var added := Add(c, map["id" := Str("1"), "name" := Str("A")], retries);
      var updated := Update(added.state, map["name" := Str("B")], "1", now, retries);
      && added.result == Ok("1")
      && Get(added.state, "1") == Ok(Some(map["id" := Str("1"), "name" := Str("A")]))
      && updated.result == Ok(true)
      && Get(updated.state, "1") ==
           Ok(Some(map["id" := Str("1"), "name" := Str("B"), PrimaryKeyName := Str("1"), TimeName := Num(now)]))
  {
    var c := Open("users", ["id", "name"], map[]);
    var rec := map["id" := Str("1"), "name" := Str("A")];
    UsersAdded(retries);
    var added := Add(c, rec, retries);
    assert Get(added.state, "1") == Ok(Some(rec));
    var values := map["name" := Str("B")];
    var stamped := Stamp(values, "1", now);
    var merged := map["id" := Str("1"), "name" := Str("B"), PrimaryKeyName := Str("1"), TimeName := Num(now)];
    assert Spread(rec, stamped) == merged;
    assert values != map[] by { assert "name" in values; }
    var updated := Update(added.state, values, "1", now, retries);
    assert updated.state.table == added.state.table["1" := Spread(rec, stamped)];
    assert updated.state.table == map["1" := merged];
  }
}
