# Cache façade model

A Dafny model of `CacheManager`, a browser-side cache façade, and its two
backends:

- **SyncCache** (used by `LocalCache` and `SessionCache`): one JSON object
  kept whole under the namespace key of a synchronous key-value engine
  (`localStorage` or `sessionStorage`). `get` parses the slot, `add` merges
  new fields over it, `update` replaces it, `delete` removes it. Each write
  first checks that the engine has the method it needs.
- **DbCache**: one table named after the namespace in a transactional record
  store (Dexie over IndexedDB). The table is declared with the schema string
  `dataKeys.join(', ')`, so its primary key is the field named by the first
  data key. `update` is an upsert that stamps the record with `primaryKey`
  and a timestamp `t`. The private `addInTable` insert path wipes the table
  and retries when an insert fails.
- **CacheManager**: picks one backend at construction from `isSingle` and
  `clearBeforeClosed`, refuses to start without a namespace, and forwards
  `get`, `add`, `update` and `delete`.

Every operation is a pure function. It returns the call's result (or the
error it throws or rejects with) together with the store's state afterwards.
The stores are immutable maps:

- a blob engine is a map from key to stored text, plus flags for the methods
  it offers;
- the record table is a map from primary key to record.

Module layout follows the source:

- `Outcomes`: `Option`, `Result`, `Step` and the error kinds.
- `Json`: JSON values and object spread.
- `Schema`: how `dataKeys` becomes the primary key.
- `SyncCache`, `DbCache` and `CacheManager`: one module per class.

Conventions of the model:

- An absent key argument (`undefined`) is the empty string. Every use of a
  key in the source tests its truthiness first, so the two behave the same.
- `Date.now()` is the parameter `now`.
- The unbounded retry of `addInTable` is cut off after `retries` wipes.
  `DbCache.RetryOnceSuffices` shows that one wipe is enough whenever the
  record carries a key. `DbCache.NoKeyNeverInserts` covers the case where the
  source would loop forever if `instance.delete()` wipes the table, as
  modelled.
- A table operation that rejects leaves the table unchanged. This matches the
  rejected read-write transaction being rolled back.
- Notes on what the code does:
  - `get` reads an absent or blank slot as `{}` (src/CacheManager.ts:21).
  - `get` returns `undefined`, rather than failing, when the engine has no
    `getItem` (src/CacheManager.ts:19-29). A `SyncCache.Add` on such an
    engine therefore overwrites the slot with `values`.
  - `update` stamps the literal field `primaryKey`, not the key field
    (src/CacheManager.ts:209 and 213). When
    the key field is another name that `values` does not supply, an upsert of
    a missing key can never insert. `DbCache.UpdateMissingWithoutKeyField`
    proves this. If `instance.delete()` wipes the table, as modelled, the
    source's retry loop never ends here.
- `DbCache` declares a field `count = 3` that the source never reads. It
  plays no part here.

## Model

| member | source | states |
|---|---|---|
| `Json.Spread` | src/CacheManager.ts:45 | object spread `{...a, ...b}`: the fields of both, with `b` winning on a clash and `a` kept elsewhere |
| `SyncCache.Get` | src/CacheManager.ts:15-30 | `undefined` exactly when the engine lacks `getItem`; an absent slot reads as `{}`, and so does a blank one; a stored object reads back as itself; a ReadError exactly when the stored text does not parse |
| `SyncCache.Add` | src/CacheManager.ts:35-52 | without `setItem` it throws before reading or writing and the slot is unchanged; on success the slot holds every field of `values` with its new value and every other old field; on an absent slot, or with no `getItem`, exactly `values`; no other key of the engine changes; any failure leaves the state as it was; a failed read throws "Add Failed! Please check your data." followed by the read's message, and a rejected write throws the same text alone |
| `SyncCache.Update` | src/CacheManager.ts:57-72 | without `setItem` it throws and nothing changes; on success the slot holds exactly `values`, whatever it held, and the key argument plays no part; no other key changes; a rejected write throws "Update Failed! Please check your data" |
| `SyncCache.Delete` | src/CacheManager.ts:77-84 | without `removeItem` it throws, with the update message, and nothing changes; otherwise the slot is gone and no other key changes |
| `SyncCache.AddThenGet` | src/CacheManager.ts:43-45 | merge: after `add(values)`, `get()` returns the old object overridden by `values` |
| `SyncCache.AddTwice` | src/CacheManager.ts:43-45 | `add(a)` then `add(b)` equals `add({...a, ...b})` when the engine can read |
| `SyncCache.UpdateThenGet` | src/CacheManager.ts:57-65 | replacement: after `update(values)`, `get()` returns exactly `values` |
| `SyncCache.UpdateOverwrites` | src/CacheManager.ts:57-65 | the last update wins, and the key argument never matters |
| `SyncCache.AddToAbsentIsUpdate` | src/CacheManager.ts:21 | on an absent slot, `add` and `update` succeed together and store the same object, because absence reads as `{}` |
| `SyncCache.DeleteThenGet` | src/CacheManager.ts:77-84 | after `delete()`, `get()` reads `{}` again |
| `Schema.PrimaryKeyIsFirstDataKey` | src/CacheManager.ts:126-128 | with the schema `dataKeys.join(', ')`, the primary key is the field named `dataKeys[0]` whenever that name is a plain identifier (letters, digits, `_`, `$`, not starting with a digit); with no data keys there is no key path |
| `Schema.FirstEntryOfPrefix` | src/CacheManager.ts:127 | the first comma-separated entry of `name + rest` is `name` when `name` has no comma |
| `DbCache.Open` | src/CacheManager.ts:114-131 | the cache keeps the given `dataKeys` and sees the table the store already holds under the namespace; the table is keyed by the field named `dataKeys[0]` when that is a plain name, and has no key path without data keys |
| `DbCache.Get` | src/CacheManager.ts:140-154 | an empty key is rejected; otherwise "not found" exactly when no record has that key, else the stored record |
| `DbCache.Insert` | src/CacheManager.ts:159 | the engine's insert succeeds exactly when the record has a string primary key not yet taken; then the table gains exactly that record; on failure nothing changes |
| `DbCache.AddInTable` | src/CacheManager.ts:156-167 | succeeds exactly when the record has a key and either the key is free or a retry is left; a first insert that succeeds adds exactly that record; after a wipe the table holds only the new record; when every attempt fails, the table is left wiped if any retry happened |
| `DbCache.Add` | src/CacheManager.ts:169-180 | empty values are rejected and nothing changes; a failed insert path rejects with a StructuralFailure; success returns the record's own key, with the record stored under it and every other record kept when the key was free; when the key was taken, the table is wiped and holds only the new record; a successful add leaves the table the insert path produces |
| `DbCache.Delete` | src/CacheManager.ts:183-196 | an empty key is rejected; otherwise the call resolves `true` and exactly the record at that key is gone, every other record unchanged |
| `DbCache.Stamp` | src/CacheManager.ts:209-213 | the record `{primaryKey, ...values, t}` carries every field of `values` except `t`, carries `t = now`, and carries `primaryKey = key` unless `values` names it |
| `DbCache.Update` | src/CacheManager.ts:198-221 | missing values or key are rejected and nothing changes; an existing record gets every field of `values` except `t`, then `t = now`, and `primaryKey = key` unless `values` names it; it keeps its other fields, and every other record is unchanged; a missing key goes through the insert path, succeeding exactly when it does, otherwise rejecting with a StructuralFailure, and leaving its table: the stamped record is added under its own key, or, when that key is taken, the table is wiped to that record alone; success always resolves `true` |
| `DbCache.Clear` | src/CacheManager.ts:223-225 | afterwards the table is empty, so no key finds a record |
| `DbCache.AddThenGet` | src/CacheManager.ts:169-180 | round trip: the record added is what `get` returns for the key `add` resolved with, unless that key is empty |
| `DbCache.GetOnEmpty` | src/CacheManager.ts:140-154 | on a fresh table every non-empty key is "not found" |
| `DbCache.DeleteThenGet` | src/CacheManager.ts:183-196 | a deleted key is "not found", and deleting twice equals deleting once |
| `DbCache.RetryOnceSuffices` | src/CacheManager.ts:156-167 | with a keyed record, any retry bound of at least one behaves like a single wipe-and-retry and succeeds |
| `DbCache.NoKeyNeverInserts` | src/CacheManager.ts:156-167 | a record without a key is never inserted, whatever the bound; any retry leaves the table wiped |
| `DbCache.UpdateMissingIsAdd` | src/CacheManager.ts:211-215 | an upsert of a missing key reaches the same state as `add` of the stamped record and succeeds exactly when it does |
| `DbCache.UpdateMissingWithoutKeyField` | src/CacheManager.ts:211-215 | when the key field is neither `primaryKey` nor `t` and `values` lacks it, an upsert of a missing key always fails and changes nothing |
| `DbCache.AddInTableKeepsWellKeyed` | src/CacheManager.ts:156-167 | the insert path keeps every record under its own key |
| `DbCache.OperationsKeepWellKeyed` | src/CacheManager.ts:169-225 | `add`, `delete` and `clear` keep every record under its own key; `update` does too when its values do not move the key field |
| `DbCache.UsersAdded` | src/CacheManager.ts:169-180 | on a fresh table keyed by `id`, adding `{id: "1", name: "A"}` resolves `"1"` and leaves that record alone under `"1"` |
| `DbCache.UsersScenario` | src/CacheManager.ts:198-221 | on a table keyed by `id`, an added record is read back whole; updating its name keeps `id`, replaces `name`, and adds `primaryKey` and `t` |
| `CacheManager.New` | src/CacheManager.ts:245-282 | a missing or empty namespace fails with a ConfigError and creates no backend; otherwise the defaults apply, and a table backend receives the given `dataKeys` (default `[]`); `isSingle` selects `SessionCache` when `clearBeforeClosed` is set and `LocalCache` otherwise; `!isSingle` selects `DbCache`; the unload hook is registered exactly for a table with `clearBeforeClosed` |
| `CacheManager.Get` | src/CacheManager.ts:285-288 | the table answers for the key and rejects an empty one; the blob backends answer as their `get()` does; a backend's error is passed on unchanged |
| `CacheManager.Add` | src/CacheManager.ts:290-292 | forwards to the backend, whose outcome and state it takes; a backend's error is passed on unchanged, a table add answers with the key it resolved, and a blob add answers nothing (the source's `void`); configuration and backend kind stay fixed |
| `CacheManager.Update` | src/CacheManager.ts:303-305 | forwards to the backend with the key; a backend's error is passed on unchanged, a table update answers `true`, and a blob update answers nothing; configuration and backend kind stay fixed |
| `CacheManager.DeleteAsWritten` | src/CacheManager.ts:295-301 | never returns normally; with an empty key nothing changes; with a key the backend's delete takes effect first, and the call throws the backend's own error if it threw, the "Please input correct primaryKey" error otherwise; the backend keeps the façade's namespace |
| `CacheManager.Delete` | src/CacheManager.ts:295-301 | corrected delete: an empty key fails and touches nothing; a table delete resolves `true` and removes the key; a blob delete succeeds exactly when the engine has `removeItem` and removes the slot; with a key the backend ends in exactly the state its own delete leaves (every other record and engine key kept), a backend's error is passed on unchanged, and a successful blob delete answers nothing; the backend keeps the façade's namespace |
| `CacheManager.Unload` | src/CacheManager.ts:274-280 | the registered unload hook empties the table and leaves its namespace and `dataKeys` alone; without the hook, or with a blob backend, nothing changes; the backend keeps the façade's namespace |
| `CacheManager.BackendFixed` | src/CacheManager.ts:241 | no operation changes the configuration or the kind of backend |
| `CacheManager.DeleteCorrectionAgrees` | src/CacheManager.ts:295-301 | both deletes reach the same state; where the corrected delete succeeds the source's throws |
| `CacheManager.DeleteDefectWitness` | src/CacheManager.ts:295-301 | a concrete input: the blob slot is removed, yet the source's delete throws, while the corrected one returns normally |
| `CacheManager.NoNamespaceNoCache` | src/CacheManager.ts:253-261 | without options, or with a missing or empty namespace, construction fails |

## Findings

| source | as written | input that shows it | evidently intended | confidence | as-written member | corrected member |
|---|---|---|---|---|---|---|
| src/CacheManager.ts:295-301 | `delete` forwards to the backend when the key is set and then throws unconditionally | a `LocalCache` façade whose engine has `removeItem`, `delete("k")`: the slot is removed and the call still throws "Please input correct primaryKey " | throw only when the key is missing; otherwise return the backend's outcome | high (not executed) | `CacheManager.DeleteAsWritten` | `CacheManager.Delete` |

## Left out

- Promises and Dexie transaction scopes (`'r'`/`'rw'`): each operation is one atomic transition.
- The façade drops the promises returned by `add`, `update` and `delete`. In the model the façade returns the backend's outcome instead.
- The real `localStorage`, `sessionStorage` and IndexedDB engines. Session versus local retention is only the `Local`/`Session` tag.
- JSON as text. A slot holds a parsed object, blank text, or text that does not parse. Stored JSON that parses to something other than an object is not modelled. Failures of `JSON.stringify` are not modelled either.
- The parse error's own message, which the source appends to its "Get Failed!" and "Add Failed!" texts.
- Why an engine rejects a write (a full quota, say) is not modelled. The flag `rejectsWrites` marks an engine whose `setItem` throws.
- `null` or `undefined` passed as `values`: the model always receives an object. `DbCache` rejects such input exactly as it rejects `{}`.
- Numbers are integers, and primary keys are strings only. Dexie's numeric, date and array keys are not modelled.
- Schema syntax beyond plain field names: `++`, `&` and `*` prefixes, compound `[a+b]` keys, dotted key paths such as `a.b`, and versions other than 1.
- A first data key that is not a valid key path, such as one starting with a digit (`1id`), makes the engine refuse to create the table, so the database never opens. The model does not represent a database that failed to open; `Schema.PrimaryKeyIsFirstDataKey` and `DbCache.Open` state the key field only for plain identifiers.
- Trimming of a schema entry removes only ASCII space, tab, CR and LF, not the other white space JavaScript's `trim` removes.
- `this.instance.delete()` in `addInTable` (src/CacheManager.ts:163) is modelled as a wipe of the whole table. What Dexie does with a key-less `Table.delete` is outside this model.
- The engine's partial update when the changes move the primary key to another key. `DbCache.OperationsKeepWellKeyed` states its `update` clause only for updates that keep the key.
- `DbCache.AddInTable`: the retry bound is a parameter. The source recursion is unbounded. If `instance.delete()` wipes the table, as modelled, it never terminates for a record without a key. When no retry is left the model reports a StructuralFailure.
- The constructor's warm-up read of key `'2241003002'`, whose result is discarded.
- `window.onbeforeunload` itself. Only a flag records that the hook was registered, and `CacheManager.Unload` runs it.
- `console.log` and the unused lodash import.
- `clear()` deletes the whole database. The model empties the table; reopening after the delete is not modelled.
