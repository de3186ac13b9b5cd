/**
 * The storage handle (localStorage or sessionStorage): named slots, each holding the
 * codec's encoding of one state bag. The codec is abstract: a slot either decodes to a
 * bag or is malformed.
 */
module Storage {
  import opened Values

  /** What the codec makes of a slot's text: a bag, or a parse failure. */
  datatype Slot = Malformed | Bag(contents: StateBag)

  class Store {
    var slots: map<string, Slot>

    constructor (slots: map<string, Slot>)
      ensures this.slots == slots
    {
      this.slots := slots;
    }

    /** getItem: the slot under `key`, None when nothing is stored there. */
    method GetItem(key: string) returns (item: Option<Slot>)
      ensures key in slots ==> item == Some(slots[key])
      ensures key !in slots ==> item == None
    {
      item := if key in slots then Some(slots[key]) else None;
    }

    /** setItem: overwrite the slot under `key` and no other. */
    method SetItem(key: string, slot: Slot)
      modifies this
      ensures slots == old(slots)[key := slot]
    {
      slots := slots[key := slot];
    }
  }

  /** `JSON.parse(getItem(key) || '')` with its failure caught: missing or undecodable slots read as {}. */
  function Decode(item: Option<Slot>): StateBag
  {
    match item
    case Some(Bag(contents)) => contents
    case _ => map[]
  }

  /** The bag slot `key` decodes to, as getAll reads it. */
  function ReadBag(slots: map<string, Slot>, key: string): StateBag
  {
    Decode(if key in slots then Some(slots[key]) else None)
  }

  /** A bag written to a slot reads back unchanged, and every other slot reads as before. */
  lemma ReadBagAfterWrite(slots: map<string, Slot>, key: string, bag: StateBag, other: string)
    ensures ReadBag(slots[key := Bag(bag)], key) == bag
    ensures other != key ==> ReadBag(slots[key := Bag(bag)], other) == ReadBag(slots, other)
  {
  }

  /** A slot that was never written, or whose text does not parse, reads as the empty bag. */
  lemma UnreadableSlotReadsEmpty(slots: map<string, Slot>, key: string)
    requires key !in slots || slots[key].Malformed?
    ensures ReadBag(slots, key) == map[]
  {
  }
}
