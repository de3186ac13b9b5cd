/**
 * The tab-scoped tier: a plain bag in its own slot of a second storage handle
 * (sessionStorage), with no expiry.
 */
module NonPersisting {
  import opened Values
  import opened Storage

  const SlotPrefix := "non-persisting-"
  const DefaultSlotKey := "non-persisting-session-key"

  /** The slot key: the prefixed root key, or the default when no key (a falsy one) is given. */
  function SlotKey(key: string): (slot: string)
    ensures key == "" ==> slot == DefaultSlotKey
    ensures key != "" ==> |slot| == |SlotPrefix| + |key|
    ensures key != "" ==> slot[..|SlotPrefix|] == SlotPrefix && slot[|SlotPrefix|..] == key
  {
    if key == "" then DefaultSlotKey else SlotPrefix + key
  }

  /** Two sessions with different (non-empty) keys never share a tab-scoped slot. */
  lemma SlotKeyInjective(a: string, b: string)
    requires a != "" && b != ""
    requires SlotKey(a) == SlotKey(b)
    ensures a == b
  {
    assert a == SlotKey(a)[|SlotPrefix|..];
  }

  /**
   * The default slot is also the slot of the key "session-key". Only a tier constructed
   * directly with an empty key reaches the default slot: a `Session` always passes its
   * resolved root key, which is never empty.
   */
  lemma DefaultSlotCoincides()
    ensures SlotKey("") == SlotKey("session-key")
  {
    assert SlotPrefix + "session-key" == DefaultSlotKey;
  }

  class NonPersistingSession {
    const key: string
    const storage: Store

    constructor (key: string, storage: Store)
      ensures this.key == SlotKey(key) && this.storage == storage
    {
      this.key := SlotKey(key);
      this.storage := storage;
    }

    /** The bag as the slot decodes now. */
    function Data(): StateBag
      reads storage
    {
      ReadBag(storage.slots, key)
    }

    /** getAll: a missing or undecodable slot reads as the empty bag. */
    method GetAll() returns (data: StateBag)
      ensures key !in storage.slots || storage.slots[key].Malformed? ==> data == map[]
      ensures key in storage.slots && storage.slots[key].Bag? ==> data == storage.slots[key].contents
    {
      var item := storage.GetItem(key);
      data := Decode(item);
    }

    /** setAll: overwrite this tier's slot with `data`, no other slot. */
    method SetAll(data: StateBag)
      modifies storage
      ensures storage.slots == old(storage.slots)[key := Slot.Bag(data)]
      ensures Data() == data
    {
      storage.SetItem(key, Slot.Bag(data));
    }

    method Has(k: string) returns (b: bool)
      ensures b <==> k in Data()
    {
      var data := GetAll();
      b := k in data;
    }

    method Get(k: string) returns (r: Value)
      ensures k in Data() ==> r == Data()[k]
      ensures k !in Data() ==> r == Null
    {
      var present := Has(k);
      if present {
        var data := GetAll();
        r := data[k];
      } else {
        r := Null;
      }
    }

    method Set(k: string, v: Value)
      modifies storage
      ensures storage.slots == old(storage.slots)[key := Slot.Bag(old(Data())[k := v])]
      ensures k in Data() && Data()[k] == v
      ensures forall j :: j != k ==> Lookup(Data(), j) == Lookup(old(Data()), j)
    {
      var data := GetAll();
      data := data[k := v];
      SetAll(data);
    }

    /** Deletes `k` and writes the slot back even when `k` was absent. */
    method Remove(k: string)
      modifies storage
      ensures storage.slots == old(storage.slots)[key := Slot.Bag(old(Data()) - {k})]
      ensures k !in Data()
    {
      var data := GetAll();
      data := data - {k};
      SetAll(data);
    }

    method Clear()
      modifies storage
      ensures storage.slots == old(storage.slots)[key := Slot.Bag(map[])]
      ensures Data() == map[]
    {
      SetAll(map[]);
    }
  }
}
