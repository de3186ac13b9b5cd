/** Values as the JSON codec round-trips them, and the state bag that every tier stores. */
module Values {

  datatype Option<+T> = None | Some(value: T)

  /**
   * A JSON-representable value. Numbers are integers (timestamps and counters are all
   * the session layer computes with). Nested objects let a tier's sub-bag and an
   * expiring `{value, expiry}` record live inside the root bag.
   */
  datatype Value =
    | Null
    | Bool(b: bool)
    | Num(n: int)
    | Str(s: string)
    | Arr(items: seq<Value>)
    | Obj(fields: map<string, Value>)

  /** The decoded contents of one storage slot or one tier: key to value, order irrelevant. */
  type StateBag = map<string, Value>

  /** A property read that yields null for a missing key (Session.get, NonPersistingSession.get). */
  function Lookup(bag: StateBag, k: string): Value
  {
    if k in bag then bag[k] else Null
  }

  /** Writing `k` makes it read back as written and leaves every other key's reading alone. */
  lemma LookupAfterSet(bag: StateBag, k: string, v: Value, j: string)
    ensures Lookup(bag[k := v], k) == v
    ensures j != k ==> Lookup(bag[k := v], j) == Lookup(bag, j)
  {
  }

  /** Deleting `k` makes it read as null and leaves every other key's reading alone. */
  lemma LookupAfterDelete(bag: StateBag, k: string, j: string)
    ensures Lookup(bag - {k}, k) == Null
    ensures j != k ==> Lookup(bag - {k}, j) == Lookup(bag, j)
  {
  }

  /**
   * How a tier reads the value its parent holds under the tier's private key:
   * a stored object is the sub-bag, null (the key is missing) is the empty bag.
   */
  function AsBag(v: Value): StateBag
  {
    match v
    case Obj(fields) => fields
    case _ => map[]
  }

  /** A sub-bag a tier writes as an object reads back unchanged; a missing one (null) reads as {}. */
  lemma AsBagRoundTrip(bag: StateBag)
    ensures AsBag(Obj(bag)) == bag
    ensures AsBag(Null) == map[]
  {
  }
}
