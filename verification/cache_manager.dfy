/** The cache façade (`CacheManager`): chooses one backend at construction
    and forwards `get`, `add`, `update` and `delete` to it. */
module CacheManager {
  import opened Outcomes
  import opened Json
  import SyncCache
  import DbCache

  const NamespaceMessage := "Please set a namespace for the cache"
  const DeleteMessage := "Please input correct primaryKey "

  /** The constructor's options; `None` is a field left undefined. */
  datatype Options = Options(
    isSingle: Option<bool>,
    clearBeforeClosed: Option<bool>,
    namespace: Option<string>,
    dataKeys: Option<seq<string>>)

  /** The storage the hosting page offers: the two synchronous engines and
      the records already kept in the record store under the namespace. */
  datatype Environment = Environment(
    localStorage: SyncCache.Storage,
    sessionStorage: SyncCache.Storage,
    database: DbCache.Table)

  /** The backend, fixed at construction: a durable blob cache, a blob cache
      that lives as long as the session, or a record table. */
  datatype Backend =
    | Local(blob: SyncCache.Cache)
    | Session(blob: SyncCache.Cache)
    | Db(db: DbCache.Cache)

  /** A constructed façade. `clearOnUnload` records that the page-unload
      hook calling the table's `clear()` was registered. */
  datatype Manager = Manager(
    isSingle: bool,
    clearBeforeClosed: bool,
    namespace: string,
    dataKeys: seq<string>,
    cache: Backend,
    clearOnUnload: bool)

  /** What a façade call hands back: the blob, a record, an inserted key, the
      `true` a table write resolves with, or nothing. */
  datatype Reply =
    | Blob(contents: Option<Fields>)
    | Row(record: Option<DbCache.Record>)
    | Key(key: string)
    | Done(flag: bool)
    | Nothing

  /** Same configuration and same kind of backend. */
  predicate SameShape(a: Manager, b: Manager) {
    && a.isSingle == b.isSingle
    && a.clearBeforeClosed == b.clearBeforeClosed
    && a.namespace == b.namespace
    && a.dataKeys == b.dataKeys
    && a.clearOnUnload == b.clearOnUnload
    && a.cache.Local? == b.cache.Local?
    && a.cache.Session? == b.cache.Session?
    && a.cache.Db? == b.cache.Db?
  }

  /** The backend owns the façade's namespace. */
  predicate Owned(m: Manager) {
    match m.cache
    case Local(b) => b.namespace == m.namespace
    case Session(b) => b.namespace == m.namespace
    case Db(d) => d.namespace == m.namespace && d.dataKeys == m.dataKeys
  }

  /** The constructor. Missing options take their defaults (`isSingle` true,
      `clearBeforeClosed` false, no namespace, no data keys); a missing or
      empty namespace throws before any backend exists. */
  function New(options: Option<Options>, env: Environment): (r: Result<Manager>)
    ensures var o := options.GetOr(Options(None, None, None, None));
      r.Err? <==> o.namespace.GetOr("") == ""
    ensures r.Err? ==> r.error == ConfigError(NamespaceMessage)
    ensures r.Ok? ==> r.value.namespace != "" && Owned(r.value)
    ensures r.Ok? ==> var o := options.GetOr(Options(None, None, None, None));
      && r.value.isSingle == o.isSingle.GetOr(true)
      && r.value.clearBeforeClosed == o.clearBeforeClosed.GetOr(false)
      && r.value.namespace == o.namespace.value
    ensures r.Ok? ==> (r.value.cache.Session? <==> r.value.isSingle && r.value.clearBeforeClosed)
    ensures r.Ok? ==> (r.value.cache.Local? <==> r.value.isSingle && !r.value.clearBeforeClosed)
    ensures r.Ok? ==> (r.value.cache.Db? <==> !r.value.isSingle)
    ensures r.Ok? ==> (r.value.clearOnUnload <==> !r.value.isSingle && r.value.clearBeforeClosed)
    ensures r.Ok? && r.value.cache.Local? ==> r.value.cache.blob.storage == env.localStorage
    ensures r.Ok? && r.value.cache.Session? ==> r.value.cache.blob.storage == env.sessionStorage
    ensures r.Ok? && r.value.cache.Db? ==> r.value.cache.db.table == env.database
    ensures r.Ok? && r.value.cache.Db? ==> var o := options.GetOr(Options(None, None, None, None));
      r.value.dataKeys == o.dataKeys.GetOr([]) && r.value.cache.db.dataKeys == o.dataKeys.GetOr([])
  {
    var o := options.GetOr(Options(None, None, None, None));
    var isSingle := o.isSingle.GetOr(true);
    var clearBeforeClosed := o.clearBeforeClosed.GetOr(false);
    var namespace := o.namespace.GetOr("");
    if namespace == "" then Err(ConfigError(NamespaceMessage))
    else if isSingle then
      var blob := SyncCache.Cache(namespace, if clearBeforeClosed then env.sessionStorage else env.localStorage);
      Ok(Manager(isSingle, clearBeforeClosed, namespace, [],
                 if clearBeforeClosed then Session(blob) else Local(blob), false))
    else
      var dataKeys := o.dataKeys.GetOr([]);
      Ok(Manager(isSingle, clearBeforeClosed, namespace, dataKeys,
                 Db(DbCache.Open(namespace, dataKeys, env.database)), clearBeforeClosed))
  }

  /** `get(key)`: the blob backends ignore the key; the table looks it up. */
  function Get(m: Manager, key: string): (r: Result<Reply>)
    ensures m.cache.Db? ==> (r.Ok? <==> key != "")
    ensures m.cache.Db? && r.Ok? ==> r.value == Row(DbCache.Get(m.cache.db, key).value)
    ensures !m.cache.Db? ==> (r.Ok? <==> SyncCache.Get(m.cache.blob).Ok?)
    ensures !m.cache.Db? && r.Ok? ==> r.value == Blob(SyncCache.Get(m.cache.blob).value)
    ensures r.Err? ==>
      r.error ==
        (if m.cache.Db? then DbCache.Get(m.cache.db, key).error else SyncCache.Get(m.cache.blob).error)
  {
    match m.cache
    case Db(d) =>
      (match DbCache.Get(d, key)
       case Ok(rec) => Ok(Row(rec))
       case Err(e) => Err(e))
    case _ =>
      match SyncCache.Get(m.cache.blob)
      case Ok(b) => Ok(Blob(b))
      case Err(e) => Err(e)
  }

  /** Rewraps a blob backend's step as a façade step. */
  function FromBlob(m: Manager, s: Step<(), SyncCache.Cache>): (r: Step<Reply, Manager>)
    requires !m.cache.Db?
    ensures !r.state.cache.Db? && r.state.cache.Local? == m.cache.Local? && r.state.cache.blob == s.state
    ensures r.state == m.(cache := r.state.cache)
    ensures r.result.Ok? <==> s.result.Ok?
    ensures r.result.Ok? ==> r.result.value == Nothing
    ensures r.result.Err? ==> r.result.error == s.result.error
  {
    var m' := m.(cache := if m.cache.Local? then Local(s.state) else Session(s.state));
    match s.result
    case Ok(_) => Step(Ok(Nothing), m')
    case Err(e) => Step(Err(e), m')
  }

  /** Rewraps the table backend's step as a façade step. */
  function FromTable<T>(m: Manager, s: Step<T, DbCache.Cache>, reply: T -> Reply): (r: Step<Reply, Manager>)
    requires m.cache.Db?
    ensures r.state == m.(cache := Db(s.state))
    ensures r.result.Ok? <==> s.result.Ok?
    ensures r.result.Ok? ==> r.result.value == reply(s.result.value)
    ensures r.result.Err? ==> r.result.error == s.result.error
  {
    var m' := m.(cache := Db(s.state));
    match s.result
    case Ok(v) => Step(Ok(reply(v)), m')
    case Err(e) => Step(Err(e), m')
  }

  /** The table's delete answer as a reply. */
  function DoneReply(flag: bool): Reply { Done(flag) }

  /** The table's insert answer as a reply. */
  function KeyReply(key: string): Reply { Key(key) }

  /** `add(values)`: forwarded to the backend; configuration and backend kind
      never change. */
  function Add(m: Manager, values: Fields, retries: nat): (r: Step<Reply, Manager>)
    ensures SameShape(m, r.state)
    ensures Owned(m) ==> Owned(r.state)
    ensures m.cache.Db? ==> r.state.cache.db == DbCache.Add(m.cache.db, values, retries).state
    ensures m.cache.Db? ==> (r.result.Ok? <==> DbCache.Add(m.cache.db, values, retries).result.Ok?)
    ensures !m.cache.Db? ==> r.state.cache.blob == SyncCache.Add(m.cache.blob, values).state
    ensures !m.cache.Db? ==> (r.result.Ok? <==> SyncCache.Add(m.cache.blob, values).result.Ok?)
    ensures r.result.Err? ==>
      r.result.error ==
        (if m.cache.Db? then DbCache.Add(m.cache.db, values, retries).result.error
         else SyncCache.Add(m.cache.blob, values).result.error)
    ensures m.cache.Db? && r.result.Ok? ==> r.result.value == Key(DbCache.Add(m.cache.db, values, retries).result.value)
    ensures !m.cache.Db? && r.result.Ok? ==> r.result.value == Nothing
  {
    match m.cache
    case Db(d) => FromTable(m, DbCache.Add(d, values, retries), KeyReply)
    case _ => FromBlob(m, SyncCache.Add(m.cache.blob, values))
  }

  /** `update(values, key)`: forwarded to the backend with the key (which
      the blob backends ignore); configuration and backend kind never
      change. */
  function Update(m: Manager, values: Fields, key: string, now: int, retries: nat): (r: Step<Reply, Manager>)
    ensures SameShape(m, r.state)
    ensures Owned(m) ==> Owned(r.state)
    ensures m.cache.Db? ==> r.state.cache.db == DbCache.Update(m.cache.db, values, key, now, retries).state
    ensures m.cache.Db? ==> (r.result.Ok? <==> DbCache.Update(m.cache.db, values, key, now, retries).result.Ok?)
    ensures !m.cache.Db? ==> r.state.cache.blob == SyncCache.Update(m.cache.blob, values, key).state
    ensures !m.cache.Db? ==> (r.result.Ok? <==> SyncCache.Update(m.cache.blob, values, key).result.Ok?)
    ensures r.result.Err? ==>
      r.result.error ==
        (if m.cache.Db? then DbCache.Update(m.cache.db, values, key, now, retries).result.error
         else SyncCache.Update(m.cache.blob, values, key).result.error)
    ensures m.cache.Db? && r.result.Ok? ==> r.result.value == Done(true)
    ensures !m.cache.Db? && r.result.Ok? ==> r.result.value == Nothing
  {
    match m.cache
    case Db(d) => FromTable(m, DbCache.Update(d, values, key, now, retries), DoneReply)
    case _ => FromBlob(m, SyncCache.Update(m.cache.blob, values, key))
  }

  /** The backend's own delete, forwarded with the key. */
  function BackendDelete(m: Manager, key: string): Step<Reply, Manager> {
    match m.cache
    case Db(d) => FromTable(m, DbCache.Delete(d, key), DoneReply)
    case _ => FromBlob(m, SyncCache.Delete(m.cache.blob, key))
  }

  /** `delete(key)` as the source has it: with a key it forwards to the
      backend, and then, whatever happened, it throws. A backend that throws
      first (a blob engine without `removeItem`) throws its own error instead.
      Without a key nothing is touched. */
  function DeleteAsWritten(m: Manager, key: string): (r: Step<Reply, Manager>)
    ensures r.result.Err?
    ensures key == "" ==> r == Step(Err(InvalidArgument(DeleteMessage)), m)
    ensures key != "" ==> r.state == BackendDelete(m, key).state
    ensures key != "" && BackendDelete(m, key).result.Err? ==> r.result == BackendDelete(m, key).result
    ensures key != "" && BackendDelete(m, key).result.Ok? ==> r.result == Err(InvalidArgument(DeleteMessage))
    ensures SameShape(m, r.state)
    ensures Owned(m) ==> Owned(r.state)
  {
    if key == "" then Step(Err(InvalidArgument(DeleteMessage)), m)
    else
      var forwarded := BackendDelete(m, key);
      if forwarded.result.Err? then forwarded
      else Step(Err(InvalidArgument(DeleteMessage)), forwarded.state)
  }

  /** `delete(key)` with the evident intent: without a key it fails and
      touches nothing; with one it answers as the backend does. */
  function Delete(m: Manager, key: string): (r: Step<Reply, Manager>)
    ensures key == "" ==> r == Step(Err(InvalidArgument(DeleteMessage)), m)
    ensures SameShape(m, r.state)
    ensures key != "" && m.cache.Db? ==> r.result == Ok(Done(true))
    ensures key != "" && m.cache.Db? ==> r.state.cache.db.table.Keys == m.cache.db.table.Keys - {key}
    ensures key != "" && !m.cache.Db? ==>
      (r.result.Ok? <==> m.cache.blob.storage.caps.removeItem)
    ensures key != "" && !m.cache.Db? && r.result.Ok? ==>
      r.state.cache.blob.namespace !in r.state.cache.blob.storage.items
    ensures key != "" && m.cache.Db? ==> r.state.cache.db == DbCache.Delete(m.cache.db, key).state
    ensures key != "" && !m.cache.Db? ==> r.state.cache.blob == SyncCache.Delete(m.cache.blob, key).state
    ensures key != "" && !m.cache.Db? && r.result.Err? ==>
      r.result.error == SyncCache.Delete(m.cache.blob, key).result.error
    ensures !m.cache.Db? && r.result.Ok? ==> r.result.value == Nothing
    ensures Owned(m) ==> Owned(r.state)
  {
    if key == "" then Step(Err(InvalidArgument(DeleteMessage)), m)
    else BackendDelete(m, key)
  }

  /** The page-unload hook: when registered, the table is cleared. */
  function Unload(m: Manager): (r: Manager)
    ensures SameShape(m, r)
    ensures m.clearOnUnload && m.cache.Db? ==> r.cache.db.table == map[]
    ensures m.cache.Db? ==> r.cache.db.namespace == m.cache.db.namespace && r.cache.db.dataKeys == m.cache.db.dataKeys
    ensures !m.clearOnUnload ==> r == m
    ensures !m.cache.Db? ==> r == m
    ensures Owned(m) ==> Owned(r)
  {
    if m.clearOnUnload && m.cache.Db? then m.(cache := Db(DbCache.Clear(m.cache.db)))
    else m
  }

  /** The backend kind chosen at construction survives every operation. */
  lemma BackendFixed(m: Manager, values: Fields, key: string, now: int, retries: nat)
    ensures SameShape(m, Add(m, values, retries).state)
    ensures SameShape(m, Update(m, values, key, now, retries).state)
    ensures SameShape(m, DeleteAsWritten(m, key).state)
    ensures SameShape(m, Delete(m, key).state)
    ensures SameShape(m, Unload(m))
  {
  }

  /** The two deletes reach the same state; the corrected one succeeds
      exactly when the backend's delete does, where the source throws. */
  lemma DeleteCorrectionAgrees(m: Manager, key: string)
    ensures DeleteAsWritten(m, key).state == Delete(m, key).state
    ensures key != "" && Delete(m, key).result.Ok? ==> DeleteAsWritten(m, key).result == Err(InvalidArgument(DeleteMessage))
    ensures key != "" && Delete(m, key).result.Err? ==> DeleteAsWritten(m, key) == Delete(m, key)
  {
  }

  /** The input that shows the defect: a durable blob cache whose engine can
      remove items, asked to delete with a key. The slot is removed, yet the
      source's delete throws; the corrected delete returns normally. */
  lemma DeleteDefectWitness()
    ensures var caps := SyncCache.Capabilities(true, true, true);
      var storage := SyncCache.Storage(caps, false, map["prefs" := SyncCache.Text(map[])]);
      var m := Manager(true, false, "prefs", [], Local(SyncCache.Cache("prefs", storage)), false);
      && "prefs" !in DeleteAsWritten(m, "k").state.cache.blob.storage.items
      && DeleteAsWritten(m, "k").result == Err(InvalidArgument(DeleteMessage))
      && Delete(m, "k").result == Ok(Nothing)
  {
  }

  /** Construction without a namespace fails, whatever else is configured,
      and with no options at all. */
  lemma NoNamespaceNoCache(env: Environment, isSingle: Option<bool>, clearBeforeClosed: Option<bool>, dataKeys: Option<seq<string>>)
    ensures New(None, env) == Err(ConfigError(NamespaceMessage))
    ensures New(Some(Options(isSingle, clearBeforeClosed, None, dataKeys)), env) == Err(ConfigError(NamespaceMessage))
    ensures New(Some(Options(isSingle, clearBeforeClosed, Some(""), dataKeys)), env) == Err(ConfigError(NamespaceMessage))
  {
  }
}
