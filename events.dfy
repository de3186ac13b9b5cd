/**
 * The change-listener registry for one key: an ordered list whose handles are array
 * indices. Callbacks are opaque; `Call` reports the invocations it makes, in order.
 */
module Events {
  import opened Values

  /** An opaque callback. */
  datatype Callback = Callback(id: nat)

  /** One invocation `callback(value, handler)`; every invocation receives the handler itself as well. */
  datatype Invocation = Invocation(callback: Callback, value: Value)

  /**
   * Where `splice(index, 1)` starts on a list of length `len`: a negative index counts
   * from the end (clamped at 0), a large one is clamped to the length.
   */
  function SpliceStart(len: nat, index: int): nat
  {
    if index < 0 then (if len + index < 0 then 0 else len + index)
    else if index < len then index else len
  }

  /**
   * The list after `splice(index, 1)`: the element at the start position is deleted when
   * there is one; the elements before it keep their positions and those after it move
   * down by one.
   */
  function Spliced(s: seq<Callback>, index: int): (r: seq<Callback>)
    ensures var i := SpliceStart(|s|, index);
      && (i < |s| ==> |r| == |s| - 1 && multiset(r) + multiset{s[i]} == multiset(s))
      && (i == |s| ==> r == s)
      && (forall j :: 0 <= j < i && j < |r| ==> r[j] == s[j])
      && (forall j :: i < j < |s| ==> r[j - 1] == s[j])
  {
    var i := SpliceStart(|s|, index);
    if i < |s| then
      assert s == s[..i] + [s[i]] + s[i + 1..];
      s[..i] + s[i + 1..]
    else s
  }

  /**
   * How `remove` reads its argument: a negative index names the same listener as its
   * distance from the end, one before the start names the first listener, and one past
   * the end names none.
   */
  lemma SpliceIndexNormalised(s: seq<Callback>, index: int)
    ensures -|s| <= index < 0 ==> Spliced(s, index) == Spliced(s, |s| + index)
    ensures index < -|s| ==> Spliced(s, index) == Spliced(s, 0)
    ensures index >= |s| ==> Spliced(s, index) == s
  {
  }

  class StateEventHandler {
    const key: string
    var listeners: seq<Callback>

    constructor (key: string)
      ensures this.key == key && listeners == []
    {
      this.key := key;
      listeners := [];
    }

    /** add: appends, and returns the new element's index (the old length). */
    method Add(listener: Callback) returns (handle: nat)
      modifies this`listeners
      ensures listeners == old(listeners) + [listener]
      ensures handle == |old(listeners)| && listeners[handle] == listener
    {
      listeners := listeners + [listener];
      handle := |listeners| - 1;
    }

    /** remove: `splice(index, 1)`. */
    method Remove(index: int)
      modifies this`listeners
      ensures listeners == Spliced(old(listeners), index)
    {
      var i := SpliceStart(|listeners|, index);
      if i < |listeners| {
        listeners := listeners[..i] + listeners[i + 1..];
      }
    }

    /** call: every listener is invoked exactly once, in list order, with `value`. */
    method Call(value: Value) returns (calls: seq<Invocation>)
      ensures |calls| == |listeners|
      ensures forall i :: 0 <= i < |listeners| ==> calls[i] == Invocation(listeners[i], value)
    {
      calls := [];
      for i := 0 to |listeners|
        invariant |calls| == i
        invariant forall j :: 0 <= j < i ==> calls[j] == Invocation(listeners[j], value)
      {
        calls := calls + [Invocation(listeners[i], value)];
      }
    }
  }

  /**
   * Handles are positions: once an earlier listener is removed, the handle `h` that `add`
   * returned for a later one names the listener after it (or nothing).
   */
  lemma {:induction false} RemovalShiftsLaterHandles(s: seq<Callback>, removed: nat, h: nat)
    requires removed < h < |s|
    ensures Spliced(s, removed)[h - 1] == s[h]
    ensures h < |s| - 1 ==> Spliced(s, removed)[h] == s[h + 1]
  {
    assert SpliceStart(|s|, removed) == removed;
  }
}
