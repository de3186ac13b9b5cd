/**
 * The record an expiring tier keeps per key, `{value, expiry}`, and how a read decides
 * that it has lapsed.
 */
module Expiry {
  import opened Values

  /** `minutes * 60 * 1000`, with minutes taken as an integer. */
  function ExpiryAt(now: int, minutes: int): (t: int)
    ensures t == now <==> minutes == 0
    ensures t > now <==> minutes > 0
    ensures minutes > 0 ==> t - now >= 60000
  {
    now + minutes * 60 * 1000
  }

  /**
   * The instant `new Date(record.expiry)` stands for, None for an Invalid Date: a missing
   * field, or a field the model does not read as a date (strings, arrays, objects).
   * Null is the epoch and booleans are 0 and 1, as the Date constructor converts them.
   * A record that is not an object has no instant; for a `null` record the source's
   * `data.expiry` throws instead, which this model does not capture.
   */
  function Instant(record: Value): Option<int>
  {
    match record
    case Obj(fields) =>
      if "expiry" !in fields then None
      else DateOf(fields["expiry"])
    case _ => None
  }

  /** The instant a field converts to; None (an Invalid Date) for strings, arrays and objects. */
  function DateOf(v: Value): Option<int>
  {
    match v
    case Num(n) => Some(n)
    case Null => Some(0)
    case Bool(b) => Some(if b then 1 else 0)
    case _ => None
  }

  /**
   * `now > expiry` on Date objects: strict, so the expiry instant itself is still live.
   * Any comparison with an Invalid Date is false, so such a record never lapses.
   */
  predicate Expired(record: Value, now: int)
  {
    match Instant(record)
    case Some(e) => now > e
    case None => false
  }

  /** `record.value`: None is `undefined`, the result when the field is missing. */
  function Payload(record: Value): Option<Value>
  {
    match record
    case Obj(fields) => if "value" in fields then Some(fields["value"]) else None
    case _ => None
  }

  /** The record `set(key, value, minutes)` stores; reading it back yields what was put in. */
  function Entry(value: Value, expiry: int): (r: Value)
    ensures Payload(r) == Some(value)
    ensures Instant(r) == Some(expiry)
    ensures forall now :: Expired(r, now) <==> now > expiry
  {
    Obj(map["value" := value, "expiry" := Num(expiry)])
  }

  /**
   * A record with no expiry field, or one the Date constructor cannot read, never lapses,
   * at any instant: such an entry stays until it is removed or overwritten.
   */
  lemma UndatedNeverLapses(record: Value, now: int)
    requires Instant(record).None?
    ensures !Expired(record, now)
  {
  }

  /** Lapsing is permanent: a record expired at one instant is expired at every later one. */
  lemma {:induction false} ExpiredStaysExpired(record: Value, now: int, later: int)
    requires now <= later && Expired(record, now)
    ensures Expired(record, later)
  {
    assert Instant(record).Some? && now > Instant(record).value;
  }

  /** An entry stored for `minutes` is live up to and including its expiry instant. */
  lemma {:induction false} LiveUntilExpiry(value: Value, now: int, minutes: int, later: int)
    ensures !Expired(Entry(value, ExpiryAt(now, minutes)), later) <==> later <= now + minutes * 60000
  {
    assert ExpiryAt(now, minutes) == now + minutes * 60000;
  }
}
