/** The blob cache (`SyncCache`, shared by `LocalCache` and `SessionCache`):
    one JSON object kept whole under the namespace key of a synchronous
    key-value engine (`localStorage` or `sessionStorage`). */
module SyncCache {
  import opened Outcomes
  import opened Json

  /** The message texts the source throws. */
  const GetDataMessage := "Get Failed! Please check your data."
  const AddInstanceMessage := "Add Failed! Please check your instance."
  const AddDataMessage := "Add Failed! Please check your data."
  const UpdateInstanceMessage := "Update Failed! Please check your instance."
  const UpdateDataMessage := "Update Failed! Please check your data"

  /** The text the engine holds under one key, seen through `JSON.parse`:
      the serialisation of an object, the empty string, or text that does not
      parse. */
  datatype Stored = Text(blob: Fields) | Blank | Garbled

  /** Which of `getItem`, `setItem` and `removeItem` the engine provides. */
  datatype Capabilities = Capabilities(getItem: bool, setItem: bool, removeItem: bool)

  /** A synchronous key-value engine. `rejectsWrites` stands for an engine
      whose `setItem` throws (a full quota, say). */
  datatype Storage = Storage(caps: Capabilities, rejectsWrites: bool, items: map<string, Stored>)

  /** A blob cache: the namespace it owns in its engine. */
  datatype Cache = Cache(namespace: string, storage: Storage)

  /** The object `get()` parses when the slot is absent or blank (`'{}'`) or
      holds a serialised object; `None` for text that does not parse. */
  function Parsed(c: Cache): Option<Fields> {
    if c.namespace !in c.storage.items then Some(map[])
    else match c.storage.items[c.namespace]
      case Text(b) => Some(b)
      case Blank => Some(map[])
      case Garbled => None
  }

  /** Two caches that differ at most in the namespace slot of the engine. */
  predicate SameOutsideSlot(a: Cache, b: Cache) {
    && a.namespace == b.namespace
    && a.storage.caps == b.storage.caps
    && a.storage.rejectsWrites == b.storage.rejectsWrites
    && a.storage.items - {a.namespace} == b.storage.items - {a.namespace}
  }

  /** The object serialised in the slot of `c`, if the slot holds one. */
  function Content(c: Cache): Option<Fields> {
    if c.namespace in c.storage.items && c.storage.items[c.namespace].Text?
    then Some(c.storage.items[c.namespace].blob)
    else None
  }

  /** `get()`: `undefined` when the engine has no `getItem`; otherwise the
      stored object, with an absent or blank slot read as `{}`; a ReadError
      when the stored text does not parse. */
  function Get(c: Cache): (r: Result<Option<Fields>>)
    ensures r == Ok(None) <==> !c.storage.caps.getItem
    ensures r.Err? <==> c.storage.caps.getItem && Parsed(c).None?
    ensures r.Err? ==> r.error == ReadError(GetDataMessage)
    ensures c.storage.caps.getItem && c.namespace !in c.storage.items ==> r == Ok(Some(map[]))
    ensures c.storage.caps.getItem && c.namespace in c.storage.items && c.storage.items[c.namespace].Blank? ==>
      r == Ok(Some(map[]))
    ensures c.storage.caps.getItem && Content(c).Some? ==> r == Ok(Content(c))
  {
    if !c.storage.caps.getItem then Ok(None)
    else match Parsed(c)
      case Some(b) => Ok(Some(b))
      case None => Err(ReadError(GetDataMessage))
  }

  /** `c` with its slot set to the serialisation of `blob`. */
  function Store(c: Cache, blob: Fields): Cache {
    c.(storage := c.storage.(items := c.storage.items[c.namespace := Text(blob)]))
  }

  /** `add(values)`: without `setItem` it throws before touching anything;
      otherwise it reads the current object (`get() || {}`), spreads `values`
      over it and writes the result back. A failed read or a rejected write
      throws, and the slot keeps its content. */
  function Add(c: Cache, values: Fields): (r: Step<(), Cache>)
    ensures !c.storage.caps.setItem ==> r == Step(Err(CapabilityError(AddInstanceMessage)), c)
    ensures r.result.Err? ==> r.state == c
    ensures r.result.Ok? <==>
      c.storage.caps.setItem && !c.storage.rejectsWrites && Get(c).Ok?
    ensures SameOutsideSlot(c, r.state)
    ensures r.result.Ok? ==> Content(r.state).Some?
    ensures r.result.Ok? ==> var b := Content(r.state).value;
      && b.Keys >= values.Keys
      && (forall f :: f in values ==> b[f] == values[f])
      && (forall prior: Fields :: Get(c) == Ok(Some(prior)) ==>
            b.Keys == prior.Keys + values.Keys && forall f :: f in prior && f !in values ==> b[f] == prior[f])
    ensures r.result.Ok? && !c.storage.caps.getItem ==> Content(r.state) == Some(values)
    ensures r.result.Ok? && c.namespace !in c.storage.items ==> Content(r.state) == Some(values)
    ensures c.storage.caps.setItem && Get(c).Err? ==> r.result == Err(WriteError(AddDataMessage + GetDataMessage))
    ensures c.storage.caps.setItem && Get(c).Ok? && c.storage.rejectsWrites ==> r.result == Err(WriteError(AddDataMessage))
  {
    if !c.storage.caps.setItem then Step(Err(CapabilityError(AddInstanceMessage)), c)
    else match Get(c)
      case Err(e) => Step(Err(WriteError(AddDataMessage + e.message)), c)
      case Ok(current) =>
        if c.storage.rejectsWrites then Step(Err(WriteError(AddDataMessage)), c)
        else
          SpreadIdentity(values);
          Step(Ok(()), Store(c, Spread(current.GetOr(map[]), values)))
  }

  /** `update(values, key)`: without `setItem` it throws before touching
      anything; otherwise the slot is overwritten with `values`, whatever it
      held. The key argument plays no part. */
  function Update(c: Cache, values: Fields, key: string): (r: Step<(), Cache>)
    ensures !c.storage.caps.setItem ==> r == Step(Err(CapabilityError(UpdateInstanceMessage)), c)
    ensures r.result.Err? ==> r.state == c
    ensures r.result.Ok? <==> c.storage.caps.setItem && !c.storage.rejectsWrites
    ensures SameOutsideSlot(c, r.state)
    ensures r.result.Ok? ==> Content(r.state) == Some(values)
    ensures c.storage.caps.setItem && c.storage.rejectsWrites ==> r.result == Err(WriteError(UpdateDataMessage))
  {
    if !c.storage.caps.setItem then Step(Err(CapabilityError(UpdateInstanceMessage)), c)
    else if c.storage.rejectsWrites then Step(Err(WriteError(UpdateDataMessage)), c)
    else Step(Ok(()), Store(c, values))
  }

  /** `delete(key)`: without `removeItem` it throws (with the update message,
      as the source does) and nothing changes; otherwise the slot is removed.
      The key argument plays no part. */
  function Delete(c: Cache, key: string): (r: Step<(), Cache>)
    ensures !c.storage.caps.removeItem ==> r == Step(Err(CapabilityError(UpdateInstanceMessage)), c)
    ensures r.result.Ok? <==> c.storage.caps.removeItem
    ensures SameOutsideSlot(c, r.state)
    ensures r.result.Ok? ==> c.namespace !in r.state.storage.items
  {
    if !c.storage.caps.removeItem then Step(Err(CapabilityError(UpdateInstanceMessage)), c)
    else Step(Ok(()), c.(storage := c.storage.(items := c.storage.items - {c.namespace})))
  }

  /** Merge: after a successful `add(values)`, `get()` returns an object that
      has every field of `values` with its new value and every other field the
      slot held before. */
  lemma AddThenGet(c: Cache, values: Fields, prior: Fields)
    requires c.storage.caps.getItem
    requires Get(c) == Ok(Some(prior))
    requires Add(c, values).result.Ok?
    ensures Get(Add(c, values).state) == Ok(Some(Spread(prior, values)))
  {
    var s := Add(c, values).state;
    assert Content(s) == Some(Spread(prior, values));
  }

  /** Two merges in a row are one merge of both objects, the later one
      winning: `add({theme})` then `add({lang})` holds both fields. */
  lemma AddTwice(c: Cache, a: Fields, b: Fields)
    requires c.storage.caps.getItem
    requires Add(c, a).result.Ok?
    ensures Add(Add(c, a).state, b) == Add(c, Spread(a, b))
  {
    var prior :| Get(c) == Ok(Some(prior));
    var once := Store(c, Spread(prior, a));
    assert Add(c, a).state == once;
    assert Get(once) == Ok(Some(Spread(prior, a)));
    SpreadAssociative(prior, a, b);
    assert Store(once, Spread(Spread(prior, a), b)) == Store(c, Spread(prior, Spread(a, b)));
  }

  /** Replacement: after a successful `update(values)`, `get()` returns
      exactly `values`, whatever the slot held before. */
  lemma UpdateThenGet(c: Cache, values: Fields, key: string)
    requires c.storage.caps.getItem
    requires Update(c, values, key).result.Ok?
    ensures Get(Update(c, values, key).state) == Ok(Some(values))
  {
  }

  /** The last `update` wins, and the key argument never matters. */
  lemma UpdateOverwrites(c: Cache, a: Fields, b: Fields, k1: string, k2: string)
    ensures Update(Update(c, a, k1).state, b, k2) == Update(c, b, k1)
  {
    assert Store(Store(c, a), b) == Store(c, b);
  }

  /** On an absent slot a merge and a replacement succeed together and store
      the same thing: `get()` reads the absent slot as `{}`. */
  lemma AddToAbsentIsUpdate(c: Cache, values: Fields, key: string)
    requires c.namespace !in c.storage.items
    ensures Add(c, values).result.Ok? <==> Update(c, values, key).result.Ok?
    ensures Add(c, values).state == Update(c, values, key).state
  {
    SpreadIdentity(values);
  }

  /** After `delete()`, `get()` reads `{}` again. */
  lemma DeleteThenGet(c: Cache, key: string)
    requires c.storage.caps.getItem
    requires Delete(c, key).result.Ok?
    ensures Get(Delete(c, key).state) == Ok(Some(map[]))
  {
  }
}
