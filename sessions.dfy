/**
 * The root session store and the two tiers nested inside its bag. The three classes
 * refer to one another (each tier keeps its parent, the root keeps its tiers), so they
 * share one module.
 *
 * Every mutator reads the whole bag, edits it and writes the whole bag back. The root
 * store writes through `SetAll`, which also refreshes the in-memory mirror `state`; the
 * tiers write through the root's public `Set`, under their private keys.
 */
module Sessions {
  import opened Values
  import opened Storage
  import opened Timestamps
  import opened Expiry
  import NonPersisting

  const DefaultStoreKey := "avidian-session-key"
  const DefaultTokenKey := "avidian-token-key"
  const SessionIdKey := "session-id"
  const UserKey := "user-session"
  const ExpiringTierKey := "avidian-expiring-session-key"
  const FlashTierKey := "flash-session-key"

  /** The identity key and the two tiers' private keys are three different root keys. */
  lemma RootKeysDistinct()
    ensures SessionIdKey != FlashTierKey && SessionIdKey != ExpiringTierKey && FlashTierKey != ExpiringTierKey
  {
    assert |SessionIdKey| == 10 && |FlashTierKey| == 17 && |ExpiringTierKey| == 28;
  }

  /** The keys the public `set` refuses to write. */
  predicate Reserved(k: string)
  {
    k == SessionIdKey || k == "key"
  }

  /** `given ? given : fallback`: the empty string is falsy, like an omitted argument. */
  function OrDefault(given: string, fallback: string): (r: string)
    ensures given != "" ==> r == given
    ensures given == "" ==> r == fallback
    ensures fallback != "" ==> r != ""
  {
    if given == "" then fallback else given
  }

  /** How a call ended: it returned, or it threw the named error. */
  datatype Completion = Returned | Threw(error: string)

  class Session {
    const key: string
    const tokenKey: string
    const storage: Store
    var state: StateBag
    var temp: ExpiringSession?
    var flash: FlashSession?
    const nonpersisting: NonPersisting.NonPersistingSession

    /** The tiers are in place and point back here; the two storage handles are distinct. */
    ghost predicate Valid()
      reads this
    {
      && temp != null && temp.parent == this
      && flash != null && flash.parent == this
      && nonpersisting.storage != storage
    }

    /** The bag the root slot decodes to now. */
    function Data(): StateBag
      reads storage
    {
      ReadBag(storage.slots, key)
    }

    /** The sub-bag a tier keeps under its private key `k`. */
    function Tier(k: string): StateBag
      reads storage
    {
      AsBag(Lookup(Data(), k))
    }

    /** Since the pre-state, exactly the root slot was overwritten with `bag`, and the mirror is `bag`. */
    twostate predicate Wrote(bag: StateBag)
      reads this, storage
    {
      storage.slots == old(storage.slots)[key := Slot.Bag(bag)] && state == bag
    }

    /** Since the pre-state, neither the storage nor the mirror changed. */
    twostate predicate Untouched()
      reads this, storage
    {
      storage.slots == old(storage.slots) && state == old(state)
    }

    /**
     * Builds the session over the persistent handle `local` and the tab-scoped handle `tab`.
     * The tier constructors already write: the expiring tier seeds its own identity when its
     * sub-bag has none, and the flash tier writes its sub-bag back (or {}).
     */
    constructor (key: string, tokenKey: string, local: Store, tab: Store, now: int)
      requires local != tab
      modifies local
      ensures Valid()
      ensures this.key == OrDefault(key, DefaultStoreKey)
      ensures this.tokenKey == OrDefault(tokenKey, DefaultTokenKey)
      ensures storage == local && nonpersisting.storage == tab
      ensures nonpersisting.key == NonPersisting.SlotKey(this.key)
      ensures temp.id == Identity(ExpiringPrefix, now)
      ensures var before := ReadBag(old(local.slots), this.key);
              var seeded := if SessionIdKey in AsBag(Lookup(before, ExpiringTierKey)) then before
                            else before[ExpiringTierKey := Obj(map[SessionIdKey := Str(Identity(ExpiringPrefix, now))])];
              var after := seeded[FlashTierKey := Obj(AsBag(Lookup(before, FlashTierKey)))];
              local.slots == old(local.slots)[this.key := Slot.Bag(after)] && state == after
    {
      var k := OrDefault(key, DefaultStoreKey);
      this.key := k;
      this.tokenKey := OrDefault(tokenKey, DefaultTokenKey);
      storage := local;
      state := map[];
      temp := null;
      flash := null;
      nonpersisting := new NonPersisting.NonPersistingSession(k, tab);
      new;
      RootKeysDistinct();
      temp := new ExpiringSession(this, now);
      flash := new FlashSession(this, now);
    }

    /** getAll: a missing or undecodable slot reads as the empty bag. */
    method GetAll() returns (data: StateBag)
      ensures data == Data()
      ensures key !in storage.slots || storage.slots[key].Malformed? ==> data == map[]
      ensures key in storage.slots && storage.slots[key].Bag? ==> data == storage.slots[key].contents
    {
      var item := storage.GetItem(key);
      data := Decode(item);
    }

    /** setAll: overwrite the root slot and the mirror with `data`. */
    method SetAll(data: StateBag)
      modifies this`state, storage
      ensures Wrote(data)
      ensures Data() == data
    {
      state := data;
      storage.SetItem(key, Slot.Bag(data));
    }

    /** start: a fresh `sess:<now>` identity over the current bag, other keys kept. */
    method Start(now: int)
      modifies this`state, storage
      ensures Wrote(old(Data())[SessionIdKey := Str(Identity(PersistentPrefix, now))])
    {
      var data := GetAll();
      data := data[SessionIdKey := Str(Identity(PersistentPrefix, now))];
      SetAll(data);
    }

    method Has(k: string) returns (b: bool)
      ensures b <==> k in Data()
    {
      var data := GetAll();
      b := k in data;
    }

    /** get: the stored value, null when the key is missing. */
    method Get(k: string) returns (r: Value)
      ensures k in Data() ==> r == Data()[k]
      ensures k !in Data() ==> r == Null
    {
      var data := GetAll();
      r := if k in data then data[k] else Null;
    }

    /**
     * set: reserved keys are ignored. Otherwise the snapshot is taken BEFORE `start()` runs,
     * and the snapshot plus `k := data` is what is finally written, so the identity that
     * `start()` wrote is lost: a bag without `session-id` still has none afterwards.
     */
    method Set(k: string, data: Value, now: int)
      modifies this`state, storage
      ensures Reserved(k) ==> Untouched()
      ensures !Reserved(k) ==> Wrote(old(Data())[k := data])
      ensures !Reserved(k) ==> k in Data() && Data()[k] == data
      ensures !Reserved(k) ==> forall j :: j != k ==> Lookup(Data(), j) == Lookup(old(Data()), j)
      ensures SessionIdKey in Data() <==> SessionIdKey in old(Data())
    {
      if k == SessionIdKey || k == "key" {
        return;
      }
      var snapshot := GetAll();
      if SessionIdKey !in snapshot {
        Start(now);
      }
      SetAll(snapshot[k := data]);
      assert storage.slots == old(storage.slots)[key := Slot.Bag(snapshot[k := data])];
    }

    /** renew: with `clear`, the same as `Clear`; otherwise a new identity, other keys kept. */
    method Renew(clear: bool, now: int)
      modifies this`state, storage
      ensures clear ==> Wrote(map[SessionIdKey := Str(Identity(PersistentPrefix, now))])
      ensures !clear ==> Wrote(old(Data())[SessionIdKey := Str(Identity(PersistentPrefix, now))])
    {
      if clear {
        Clear(now);
      } else {
        var data := GetAll();
        data := data[SessionIdKey := Str(Identity(PersistentPrefix, now))];
        SetAll(data);
      }
    }

    /** id: `get("session-id")`. */
    method Id() returns (r: Value)
      ensures SessionIdKey in Data() ==> r == Data()[SessionIdKey]
      ensures SessionIdKey !in Data() ==> r == Null
    {
      r := Get(SessionIdKey);
    }

    /** clear: wipe the bag, then start, so the store is never left without an identity. */
    method Clear(now: int)
      modifies this`state, storage
      ensures Wrote(map[SessionIdKey := Str(Identity(PersistentPrefix, now))])
    {
      state := map[];
      SetAll(map[]);
      Start(now);
    }

    /** clearAll: clear the root, then the flash, expiring and tab-scoped tiers. */
    method ClearAll(now: int)
      requires Valid()
      modifies this`state, storage, temp, nonpersisting.storage
      ensures Valid()
      ensures Wrote(map[SessionIdKey := Str(Identity(PersistentPrefix, now)),
                        FlashTierKey := Obj(map[]),
                        ExpiringTierKey := Obj(map[SessionIdKey := Str(Identity(ExpiringPrefix, now))])])
      ensures temp.id == Identity(ExpiringPrefix, now)
      ensures nonpersisting.storage.slots == old(nonpersisting.storage.slots)[nonpersisting.key := Slot.Bag(map[])]
    {
      RootKeysDistinct();
      ghost var slots0 := storage.slots;
      var sid := Str(Identity(PersistentPrefix, now));
      Clear(now);
      assert storage.slots == slots0[key := Slot.Bag(map[SessionIdKey := sid])];
      flash.Clear(now);
      assert storage.slots == slots0[key := Slot.Bag(map[SessionIdKey := sid, FlashTierKey := Obj(map[])])];
      temp.Clear(now);
      assert storage.slots == slots0[key := Slot.Bag(map[SessionIdKey := sid, FlashTierKey := Obj(map[]),
                                                          ExpiringTierKey := Obj(map[SessionIdKey := Str(temp.id)])])];

      nonpersisting.Clear();
    }

    /**
     * remove, with the guard the source evidently means (`has`): a present key is deleted
     * from the stored bag and the mirror is reset to {}; an absent key changes nothing.
     */
    method Remove(k: string)
      modifies this`state, storage
      ensures k in old(Data()) ==> storage.slots == old(storage.slots)[key := Slot.Bag(old(Data()) - {k})]
      ensures k in old(Data()) ==> state == map[] && k !in Data()
      ensures k !in old(Data()) ==> Untouched()
    {
      var present := Has(k);
      if present {
        var data := GetAll();
        data := data - {k};
        SetAll(data);
        state := map[];
      }
    }

    /** remove as written: the guard calls `this.hash`, which is not a function, so every call throws. */
    method RemoveAsWritten(k: string) returns (outcome: Completion)
      ensures outcome.Threw?
    {
      outcome := Threw("TypeError: this.hash is not a function");
    }

    /** token(t, remember): persistent through `Set`, or into the tab-scoped tier only. */
    method SetToken(token: string, remember: bool, now: int)
      requires Valid()
      modifies this`state, storage, nonpersisting.storage
      ensures remember && Reserved(tokenKey) ==> Untouched()
      ensures remember && !Reserved(tokenKey) ==> Wrote(old(Data())[tokenKey := Str(token)])
      ensures remember ==> nonpersisting.storage.slots == old(nonpersisting.storage.slots)
      ensures !remember ==> Untouched()
      ensures !remember ==> (nonpersisting.storage.slots ==
        old(nonpersisting.storage.slots)[nonpersisting.key := Slot.Bag(old(nonpersisting.Data())[tokenKey := Str(token)])])
    {
      if remember {
        Set(tokenKey, Str(token), now);
      } else {
        nonpersisting.Set(tokenKey, Str(token));
      }
    }

    /** token(): the persistent value first, then the tab-scoped one, else null. */
    method Token() returns (r: Value)
      ensures tokenKey in Data() ==> r == Data()[tokenKey]
      ensures tokenKey !in Data() && tokenKey in nonpersisting.Data() ==> r == nonpersisting.Data()[tokenKey]
      ensures tokenKey !in Data() && tokenKey !in nonpersisting.Data() ==> r == Null
    {
      var persistent := Has(tokenKey);
      if persistent {
        r := Get(tokenKey);
        return;
      }
      var tabScoped := nonpersisting.Has(tokenKey);
      if tabScoped {
        r := nonpersisting.Get(tokenKey);
      } else {
        r := Null;
      }
    }

    /**
     * revokeToken: from the persistent tier when it holds the token, otherwise from the
     * tab-scoped one. The persistent branch goes through the corrected `Remove`; as written
     * it calls the `remove` whose guard throws (`RemoveAsWritten`), so nothing is deleted there.
     */
    method RevokeToken()
      requires Valid()
      modifies this`state, storage, nonpersisting.storage
      ensures tokenKey in old(Data()) ==> storage.slots == old(storage.slots)[key := Slot.Bag(old(Data()) - {tokenKey})]
      ensures tokenKey in old(Data()) ==> state == map[]
      ensures tokenKey in old(Data()) ==> nonpersisting.storage.slots == old(nonpersisting.storage.slots)
      ensures tokenKey !in old(Data()) ==> Untouched()
      ensures tokenKey !in old(Data()) && tokenKey in old(nonpersisting.Data()) ==> (nonpersisting.storage.slots ==
        old(nonpersisting.storage.slots)[nonpersisting.key := Slot.Bag(old(nonpersisting.Data()) - {tokenKey})])
      ensures tokenKey !in old(Data()) && tokenKey !in old(nonpersisting.Data()) ==>
        nonpersisting.storage.slots == old(nonpersisting.storage.slots)
    {
      var persistent := Has(tokenKey);
      if persistent {
        Remove(tokenKey);
        return;
      }
      var tabScoped := nonpersisting.Has(tokenKey);
      if tabScoped {
        nonpersisting.Remove(tokenKey);
      }
    }

    method HasToken() returns (b: bool)
      ensures b <==> tokenKey in Data() || tokenKey in nonpersisting.Data()
    {
      b := Has(tokenKey);
      if !b {
        b := nonpersisting.Has(tokenKey);
      }
    }

    /** user(u, remember): as `SetToken`, under the fixed key `user-session`. */
    method SetUser(user: Value, remember: bool, now: int)
      requires Valid()
      modifies this`state, storage, nonpersisting.storage
      ensures remember ==> Wrote(old(Data())[UserKey := user])
      ensures remember ==> nonpersisting.storage.slots == old(nonpersisting.storage.slots)
      ensures !remember ==> Untouched()
      ensures !remember ==> (nonpersisting.storage.slots ==
        old(nonpersisting.storage.slots)[nonpersisting.key := Slot.Bag(old(nonpersisting.Data())[UserKey := user])])
    {
      if remember {
        Set(UserKey, user, now);
      } else {
        nonpersisting.Set(UserKey, user);
      }
    }

    /** user(): the persistent value first, then the tab-scoped one, else null. */
    method User() returns (r: Value)
      ensures UserKey in Data() ==> r == Data()[UserKey]
      ensures UserKey !in Data() && UserKey in nonpersisting.Data() ==> r == nonpersisting.Data()[UserKey]
      ensures UserKey !in Data() && UserKey !in nonpersisting.Data() ==> r == Null
    {
      var persistent := Has(UserKey);
      if persistent {
        r := Get(UserKey);
        return;
      }
      var tabScoped := nonpersisting.Has(UserKey);
      if tabScoped {
        r := nonpersisting.Get(UserKey);
      } else {
        r := Null;
      }
    }

    /**
     * removeUser: from the persistent tier when it holds the user, otherwise from the
     * tab-scoped one. The persistent branch goes through the corrected `Remove`; as written
     * it calls the `remove` whose guard throws (`RemoveAsWritten`), so nothing is deleted there.
     */
    method RemoveUser()
      requires Valid()
      modifies this`state, storage, nonpersisting.storage
      ensures UserKey in old(Data()) ==> storage.slots == old(storage.slots)[key := Slot.Bag(old(Data()) - {UserKey})]
      ensures UserKey in old(Data()) ==> state == map[]
      ensures UserKey in old(Data()) ==> nonpersisting.storage.slots == old(nonpersisting.storage.slots)
      ensures UserKey !in old(Data()) ==> Untouched()
      ensures UserKey !in old(Data()) && UserKey in old(nonpersisting.Data()) ==> (nonpersisting.storage.slots ==
        old(nonpersisting.storage.slots)[nonpersisting.key := Slot.Bag(old(nonpersisting.Data()) - {UserKey})])
      ensures UserKey !in old(Data()) && UserKey !in old(nonpersisting.Data()) ==>
        nonpersisting.storage.slots == old(nonpersisting.storage.slots)
    {
      var persistent := Has(UserKey);
      if persistent {
        Remove(UserKey);
      } else {
        var tabScoped := nonpersisting.Has(UserKey);
        if tabScoped {
          nonpersisting.Remove(UserKey);
        }
      }
    }

    /** toObject: the mirror as last written, which is not re-read from storage. */
    method ToObject() returns (r: StateBag)
      ensures r == state
    {
      r := state;
    }
  }

  /**
   * The time-boxed tier: `{value, expiry}` records in a sub-bag under the root key
   * `avidian-expiring-session-key`, evicted lazily by `Get` and `Has`, with its own
   * `sess-temp:<ts>` identity.
   */
  class ExpiringSession {
    var id: string
    const key: string := ExpiringTierKey
    const parent: Session

    /** The sub-bag as the parent's slot decodes now. */
    function Data(): StateBag
      reads parent.storage
    {
      parent.Tier(key)
    }

    /** Seeds `{session-id: id}` only when the sub-bag (null reads as {}) has no identity. */
    constructor (parent: Session, now: int)
      modifies parent`state, parent.storage
      ensures this.parent == parent && id == Identity(ExpiringPrefix, now)
      ensures SessionIdKey in old(parent.Tier(ExpiringTierKey)) ==> parent.Untouched()
      ensures SessionIdKey !in old(parent.Tier(ExpiringTierKey)) ==>
        parent.Wrote(old(parent.Data())[ExpiringTierKey := Obj(map[SessionIdKey := Str(id)])])
    {
      id := Identity(ExpiringPrefix, now);
      this.parent := parent;
      new;
      var data := GetAll();
      if SessionIdKey !in data {
        SetAll(map[SessionIdKey := Str(id)], now);
      }
    }

    /** getAll: the parent's value under the private key; null reads as {}. */
    method GetAll() returns (data: StateBag)
      ensures data == Data()
      ensures ExpiringTierKey in parent.Data() && parent.Data()[ExpiringTierKey].Obj? ==>
        data == parent.Data()[ExpiringTierKey].fields
      ensures ExpiringTierKey !in parent.Data() ==> data == map[]
    {
      var v := parent.Get(key);
      data := AsBag(v);
    }

    /** setAll: write the sub-bag back through the parent's public `set`. */
    method SetAll(data: StateBag, now: int)
      modifies parent`state, parent.storage
      ensures parent.Wrote(old(parent.Data())[key := Obj(data)])
      ensures Data() == data
    {
      parent.Set(key, Obj(data), now);
    }

    /**
     * get: null for a missing key, with no write. A record past its expiry (strictly
     * `now > expiry`) is deleted and the shrunk sub-bag written back; null is returned.
     * Otherwise the record's `value` field, with no write.
     */
    method Get(k: string, now: int) returns (r: Option<Value>)
      modifies parent`state, parent.storage
      ensures k !in old(Data()) ==> r == Some(Null) && parent.Untouched()
      ensures k in old(Data()) && Expired(old(Data())[k], now) ==>
        r == Some(Null) && parent.Wrote(old(parent.Data())[key := Obj(old(Data()) - {k})])
      ensures k in old(Data()) && !Expired(old(Data())[k], now) ==>
        r == Payload(old(Data())[k]) && parent.Untouched()
    {
      var session := GetAll();
      if k !in session {
        return Some(Null);
      }
      var data := session[k];
      if Expired(data, now) {
        Remove(k, now);
        return Some(Null);
      }
      r := Payload(data);
    }

    /** set: stores `{value, expiry: now + minutes * 60000}` under `k`, other entries kept. */
    method Set(k: string, value: Value, minutes: int, now: int)
      modifies parent`state, parent.storage
      ensures parent.Wrote(old(parent.Data())[key := Obj(old(Data())[k := Entry(value, ExpiryAt(now, minutes))])])
      ensures k in Data() && Data()[k] == Entry(value, ExpiryAt(now, minutes))
    {
      var data := Entry(value, ExpiryAt(now, minutes));
      var session := GetAll();
      session := session[k := data];
      SetAll(session, now);
    }

    /** remove: deletes `k` without an expiry check; writes nothing when `k` is absent. */
    method Remove(k: string, now: int)
      modifies parent`state, parent.storage
      ensures k in old(Data()) ==> parent.Wrote(old(parent.Data())[key := Obj(old(Data()) - {k})])
      ensures k !in old(Data()) ==> parent.Untouched()
      ensures k !in Data()
    {
      var data := GetAll();
      if k in data {
        data := data - {k};
        SetAll(data, now);
      }
    }

    /** clear: `renew(true)`. */
    method Clear(now: int)
      modifies this`id, parent`state, parent.storage
      ensures id == Identity(ExpiringPrefix, now)
      ensures parent.Wrote(old(parent.Data())[key := Obj(map[SessionIdKey := Str(id)])])
    {
      Renew(true, now);
    }

    /** has: the same expiry check and eviction as `Get`; true exactly when `Get` would return the record's value. */
    method Has(k: string, now: int) returns (b: bool)
      modifies parent`state, parent.storage
      ensures b <==> k in old(Data()) && !Expired(old(Data())[k], now)
      ensures k !in old(Data()) ==> parent.Untouched()
      ensures k in old(Data()) && Expired(old(Data())[k], now) ==>
        parent.Wrote(old(parent.Data())[key := Obj(old(Data()) - {k})])
      ensures k in old(Data()) && !Expired(old(Data())[k], now) ==> parent.Untouched()
    {
      var session := GetAll();
      if k !in session {
        return false;
      }
      var data := session[k];
      if Expired(data, now) {
        Remove(k, now);
        return false;
      }
      b := true;
    }

    /** renew: a new `sess-temp:<now>` identity; `clear` wipes the sub-bag down to it. */
    method Renew(clear: bool, now: int)
      modifies this`id, parent`state, parent.storage
      ensures id == Identity(ExpiringPrefix, now)
      ensures clear ==> parent.Wrote(old(parent.Data())[key := Obj(map[SessionIdKey := Str(id)])])
      ensures !clear ==> parent.Wrote(old(parent.Data())[key := Obj(old(Data())[SessionIdKey := Str(id)])])
    {
      id := Identity(ExpiringPrefix, now);
      if clear {
        SetAll(map[SessionIdKey := Str(id)], now);
      } else {
        var data := GetAll();
        data := data[SessionIdKey := Str(id)];
        SetAll(data, now);
      }
    }
  }

  /** The read-once tier: a sub-bag under the root key `flash-session-key` whose entries `Get` consumes. */
  class FlashSession {
    const key: string := FlashTierKey
    const parent: Session

    function Data(): StateBag
      reads parent.storage
    {
      parent.Tier(key)
    }

    /**
     * Writes the existing sub-bag back unchanged, or {} when there is none, so flash data
     * survives construction. (The source's `state === null` branch cannot be taken,
     * because getAll already turns null into {}.)
     */
    constructor (parent: Session, now: int)
      modifies parent`state, parent.storage
      ensures this.parent == parent
      ensures parent.Wrote(old(parent.Data())[FlashTierKey := Obj(old(parent.Tier(FlashTierKey)))])
    {
      this.parent := parent;
      new;
      var state := GetAll();
      SetAll(state, now);
    }

    /** get: the stored value (None is `undefined`), and `k` is deleted in every case, with a write. */
    method Get(k: string, now: int) returns (r: Option<Value>)
      modifies parent`state, parent.storage
      ensures k in old(Data()) ==> r == Some(old(Data())[k])
      ensures k !in old(Data()) ==> r == None
      ensures parent.Wrote(old(parent.Data())[key := Obj(old(Data()) - {k})])
      ensures k !in Data()
    {
      var data := GetAll();
      r := if k in data then Some(data[k]) else None;
      Remove(k, now);
    }

    method Set(k: string, value: Value, now: int)
      modifies parent`state, parent.storage
      ensures parent.Wrote(old(parent.Data())[key := Obj(old(Data())[k := value])])
      ensures k in Data() && Data()[k] == value
    {
      var data := GetAll();
      data := data[k := value];
      SetAll(data, now);
    }

    /** getAll: the parent's value under the private key; null reads as {}. */
    method GetAll() returns (data: StateBag)
      ensures data == Data()
      ensures FlashTierKey in parent.Data() && parent.Data()[FlashTierKey].Obj? ==>
        data == parent.Data()[FlashTierKey].fields
      ensures FlashTierKey !in parent.Data() ==> data == map[]
    {
      var v := parent.Get(key);
      data := AsBag(v);
    }

    /** setAll: write the sub-bag back through the parent's public `set`. */
    method SetAll(data: StateBag, now: int)
      modifies parent`state, parent.storage
      ensures parent.Wrote(old(parent.Data())[key := Obj(data)])
      ensures Data() == data
    {
      parent.Set(key, Obj(data), now);
    }

    /** has: a non-consuming membership test. */
    method Has(k: string) returns (b: bool)
      ensures b <==> k in Data()
    {
      var data := GetAll();
      b := k in data;
    }

    /** remove: deletes only `k`, writing even when it was absent. */
    method Remove(k: string, now: int)
      modifies parent`state, parent.storage
      ensures parent.Wrote(old(parent.Data())[key := Obj(old(Data()) - {k})])
      ensures k !in Data()
    {
      var data := GetAll();
      data := data - {k};
      SetAll(data, now);
    }

    method Clear(now: int)
      modifies parent`state, parent.storage
      ensures parent.Wrote(old(parent.Data())[key := Obj(map[])])
      ensures Data() == map[]
    {
      SetAll(map[], now);
    }
  }
}
