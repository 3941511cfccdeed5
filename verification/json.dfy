/** The JSON values the caches store, and JavaScript's object spread. */
module Json {

  /** A JSON-serialisable value. Numbers are integers here (epoch timestamps
      and keys are the only numbers the caches themselves produce). */
  datatype Value =
    | Null
    | Bool(b: bool)
    | Num(n: int)
    | Str(s: string)
    | List(items: seq<Value>)
    | Object(fields: map<string, Value>)

  /** A plain object: a blob of the synchronous cache, or a record of the table. */
  type Fields = map<string, Value>

  /** `{ ...base, ...over }`: every field of `over`, and the fields of `base`
      that `over` does not name. */
  function Spread(base: Fields, over: Fields): (r: Fields)
    ensures r.Keys == base.Keys + over.Keys
    ensures forall f :: f in over ==> r[f] == over[f]
    ensures forall f :: f in base && f !in over ==> r[f] == base[f]
  {
    base + over
  }

  /** Spreading is associative, so `{ ...{ ...a, ...b }, ...c }` and
      `{ ...a, ...{ ...b, ...c } }` build the same object. */
  lemma SpreadAssociative(a: Fields, b: Fields, c: Fields)
    ensures Spread(Spread(a, b), c) == Spread(a, Spread(b, c))
  {
  }

  /** Spreading nothing over an object leaves it as it was, and spreading an
      object over nothing yields that object. */
  lemma SpreadIdentity(a: Fields)
    ensures Spread(a, map[]) == a
    ensures Spread(map[], a) == a
  {
  }
}
