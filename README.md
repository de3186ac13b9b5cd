# avidian-session: the session-state core in Dafny

avidian-session is a browser session store. A `Session` keeps one JSON bag of key/value
pairs in a persistent storage slot (`localStorage`, under the root key, by default
`avidian-session-key`). It mirrors the last bag it wrote in memory (`state`), except that
a successful `remove` resets that mirror to {}. The bag
carries a session identity `sess:<timestamp>` under `session-id`. Inside the same bag sit two tiers:

- the expiring tier (`ExpiringSession`) keeps `{value, expiry}` records under the root key
  `avidian-expiring-session-key`, carries its own `sess-temp:<timestamp>` identity, and
  evicts a record lazily when `get` or `has` finds it past its expiry;
- the flash tier (`FlashSession`) keeps read-once entries under `flash-session-key`: `get`
  returns the value and deletes it.

A third tier, `NonPersistingSession`, keeps a plain bag in a slot of the tab-scoped handle
(`sessionStorage`), under `non-persisting-<root key>`. The token and user helpers of
`Session` choose between the persistent bag and this tier. `StateEventHandler` is a
listener registry whose handles are array indices.

Every mutator reads the whole bag, edits it, and writes the whole bag back. The model
follows that shape:

- `values.dfy`: JSON values and bags.
- `storage.dfy`: a storage handle as a class over a map of slots. A slot is either a
  decodable bag or malformed text.
- `timestamps.dfy`: identities, with decimal rendering and parsing as partners.
- `expiry.dfy`: expiry records.
- `nonpersisting.dfy`: the tab-scoped tier.
- `sessions.dfy`: the root session and the two nested tiers. They sit in one module
  because the classes refer to each other.
- `events.dfy`: the listener registry.
- `scenarios.dfy`: client walkthroughs that use only the contracts.

The clock is a parameter: every operation that reads `Date.now()` takes the instant `now`.
The storage handles are injected `Store` objects.

Behaviour modelled as the code does it, where a reading of the documentation might expect otherwise:

- `set` takes its snapshot before it calls `start()`. It then writes the snapshot plus the
  new key, so the identity `start()` just wrote is lost. On a bag without `session-id`,
  `set` leaves a bag that still has no `session-id` (`Sessions.Session.Set`,
  `Scenarios.IdentityLostThenRenewed`). This model follows the code on that point.
- `get` on a missing key returns null. The expiring tier's `get` also returns null for a
  missing or expired key. The record's `value` field can itself be `undefined`, so the
  tiers' `Get` returns `Option<Value>`, with `None` standing for `undefined`.
- An expiry instant equal to `now` is still live, because the comparison is strict.
- A record whose `expiry` is no date never lapses, because comparisons with an Invalid
  Date are false.
- The empty string is falsy, so `Session("")` uses the default key, as an omitted argument does.

## Model

| member | source | states |
|---|---|---|
| Storage.ReadBagAfterWrite | src/Session.ts:105-126 | a bag written to a slot reads back unchanged, and every other slot reads as before |
| Storage.UnreadableSlotReadsEmpty | src/Session.ts:107-110 | a slot never written, or whose text fails to parse, reads as {} (the caught parse error) |
| Storage.Store.GetItem | src/Session.ts:107 | returns the slot stored under the key, or nothing when there is none |
| Storage.Store.SetItem | src/Session.ts:124 | overwrites the slot under the key and no other slot |
| Values.LookupAfterSet | src/Session.ts:58-61 | after writing k, reading k gives the value written and reading any other key gives what it gave before |
| Values.LookupAfterDelete | src/Session.ts:166 | after deleting k, reading k gives null and reading any other key gives what it gave before |
| Values.AsBagRoundTrip | src/ExpiringSession.ts:20-21 | a sub-bag written as an object reads back unchanged; a missing one (null) reads as {} |
| Sessions.OrDefault | src/Session.ts:22-23 | a non-empty argument is kept; the empty (falsy) one gives the default, so a non-empty default never yields an empty key |
| Timestamps.Render | src/Session.ts:36 | `${t}` is non-empty and starts with a minus sign exactly when t is negative |
| Timestamps.Identity | src/ExpiringSession.ts:9 | `prefix:<t>` is longer than the prefix and its colon (its round trip is IdentityRoundTrip) |
| Timestamps.Decimal | src/Session.ts:36 | the decimal rendering of a natural number is non-empty, all digits, and has no leading zero |
| Timestamps.DecimalRoundTrip | src/Session.ts:36 | parsing the decimal rendering of n gives back n |
| Timestamps.RenderRoundTrip | src/Session.ts:36 | parsing `${t}` gives back t (negative instants included) |
| Timestamps.IdentityRoundTrip | src/Session.ts:36 | `prefix:<t>` starts with the prefix and a colon, and its tail parses back to t |
| Timestamps.DistinctInstantsDistinctIdentities | src/Session.ts:96 | renewing at a different instant always yields a different identity |
| Timestamps.PrefixesPartWays | src/ExpiringSession.ts:9 | identities whose prefixes differ before the first colon are different |
| Timestamps.PersistentAndExpiringIdentitiesDiffer | src/ExpiringSession.ts:80 | a `sess:` identity never equals a `sess-temp:` identity |
| Expiry.ExpiryAt | src/ExpiringSession.ts:47 | the expiry instant is now exactly for 0 minutes, later than now exactly for positive minutes, and at least a minute later then |
| Expiry.UndatedNeverLapses | src/ExpiringSession.ts:33-34 | a record without an expiry the Date constructor can read is never expired, at any instant |
| Expiry.ExpiredStaysExpired | src/ExpiringSession.ts:73 | lapsing is permanent: expired at one instant means expired at every later one |
| Expiry.Entry | src/ExpiringSession.ts:45-48 | the stored record yields the value back, has the given expiry instant, and is expired exactly when now > expiry |
| Expiry.LiveUntilExpiry | src/ExpiringSession.ts:31-38 | a record set for m minutes at now is live exactly up to and including now + m·60000 |
| NonPersisting.SlotKey | src/NonPersistingSession.ts:6 | the slot key is `non-persisting-` + key, or the default slot key for an empty key |
| NonPersisting.SlotKeyInjective | src/NonPersistingSession.ts:6 | different non-empty root keys never share a tab-scoped slot |
| NonPersisting.DefaultSlotCoincides | src/NonPersistingSession.ts:6 | the default slot (reached only by a tier built directly with an empty key, since a session passes its non-empty root key) is also the slot of the key "session-key" |
| NonPersisting.NonPersistingSession.constructor | src/NonPersistingSession.ts:5-8 | derives the slot key from the root key, over the given tab-scoped handle |
| NonPersisting.NonPersistingSession.GetAll | src/NonPersistingSession.ts:14-20 | a missing or undecodable slot reads as {}; otherwise the stored bag |
| NonPersisting.NonPersistingSession.SetAll | src/NonPersistingSession.ts:28-31 | overwrites only this tier's slot, and the bag then reads back as given |
| NonPersisting.NonPersistingSession.Has | src/NonPersistingSession.ts:43-45 | true exactly when the key is in the bag |
| NonPersisting.NonPersistingSession.Get | src/NonPersistingSession.ts:10-12 | the stored value when present, null otherwise |
| NonPersisting.NonPersistingSession.Set | src/NonPersistingSession.ts:22-26 | the key now maps to the value; every other key reads as before |
| NonPersisting.NonPersistingSession.Remove | src/NonPersistingSession.ts:33-37 | the key is gone and the slot is rewritten even when the key was absent |
| NonPersisting.NonPersistingSession.Clear | src/NonPersistingSession.ts:39-41 | the slot holds {} |
| Sessions.RootKeysDistinct | src/ExpiringSession.ts:10 | the identity key `session-id` (src/Session.ts:73), the expiring tier's key (src/ExpiringSession.ts:10) and the flash tier's key (src/FlashSession.ts:8) are three different root keys |
| Sessions.Session.constructor | src/Session.ts:21-29 | default keys for empty arguments; the expiring tier seeds its identity only when missing; the flash sub-bag is written back (or {}); the mirror is the bag written |
| Sessions.Session.GetAll | src/Session.ts:105-112 | a missing or malformed root slot reads as {}; otherwise the stored bag |
| Sessions.Session.SetAll | src/Session.ts:122-126 | overwrites only the root slot, and the mirror equals the bag written |
| Sessions.Session.Start | src/Session.ts:34-38 | writes the bag with `session-id` set to `sess:<now>`, other keys kept |
| Sessions.Session.Has | src/Session.ts:45-47 | true exactly when the key is in the stored bag |
| Sessions.Session.Get | src/Session.ts:56-62 | the stored value when present, null otherwise |
| Sessions.Session.Set | src/Session.ts:72-84 | reserved keys change nothing; otherwise the key maps to the value, other keys read as before, and whether `session-id` is present is unchanged |
| Sessions.Session.Renew | src/Session.ts:91-99 | with clear: only a new identity remains; without: a new identity, other keys kept |
| Sessions.Session.Id | src/Session.ts:132-134 | the stored `session-id`, null when missing |
| Sessions.Session.Clear | src/Session.ts:140-144 | the bag holds exactly a fresh `sess:<now>` identity |
| Sessions.Session.ClearAll | src/Session.ts:151-157 | the bag holds a new identity, an empty flash tier and an expiring tier holding only its new identity; the tab-scoped slot holds {} |
| Sessions.Session.Remove | src/Session.ts:163-172 | (corrected guard) a present key is deleted and the mirror reset to {}; an absent key changes nothing |
| Sessions.Session.RemoveAsWritten | src/Session.ts:164 | as written, every call throws before any write |
| Sessions.Session.SetToken | src/Session.ts:183-191 | remember: written through `set`, tab tier untouched; otherwise only the tab tier is written |
| Sessions.Session.Token | src/Session.ts:192-199 | the persistent token first, then the tab-scoped one, else null |
| Sessions.Session.RevokeToken | src/Session.ts:206-214 | (corrected guard, through `Remove`) removes the token from the persistent bag if there, else from the tab tier if there, else changes nothing |
| Sessions.Session.HasToken | src/Session.ts:220-224 | true exactly when either tier holds the token key |
| Sessions.Session.SetUser | src/Session.ts:235-243 | as SetToken, under the key `user-session` |
| Sessions.Session.User | src/Session.ts:244-251 | the persistent user first, then the tab-scoped one, else null |
| Sessions.Session.RemoveUser | src/Session.ts:261-270 | (corrected guard, through `Remove`) removes the user from the persistent bag if there, else from the tab tier if there |
| Sessions.Session.ToObject | src/Session.ts:286-288 | the in-memory mirror, not re-read from storage |
| Sessions.ExpiringSession.constructor | src/ExpiringSession.ts:8-17 | identity `sess-temp:<now>`; writes `{session-id: id}` only when the sub-bag has no identity |
| Sessions.ExpiringSession.GetAll | src/ExpiringSession.ts:18-25 | the parent's value under the private key; missing or null reads as {} |
| Sessions.ExpiringSession.SetAll | src/ExpiringSession.ts:40-43 | writes the sub-bag through the parent's `set` under the private key |
| Sessions.ExpiringSession.Get | src/ExpiringSession.ts:26-39 | missing: null, no write; expired (now > expiry): null, and the record is deleted; live: the record's value, no write |
| Sessions.ExpiringSession.Set | src/ExpiringSession.ts:44-53 | stores `{value, expiry: now + minutes·60000}` under the key, other records kept |
| Sessions.ExpiringSession.Remove | src/ExpiringSession.ts:54-61 | deletes the key without an expiry check; writes nothing when absent |
| Sessions.ExpiringSession.Clear | src/ExpiringSession.ts:62-64 | a new identity, and the sub-bag holds only it |
| Sessions.ExpiringSession.Has | src/ExpiringSession.ts:65-78 | true exactly when the record is present and live; the same eviction as Get |
| Sessions.ExpiringSession.Renew | src/ExpiringSession.ts:79-90 | a new identity; with clear the sub-bag holds only it, otherwise other records are kept |
| Sessions.FlashSession.constructor | src/FlashSession.ts:7-16 | writes the existing sub-bag back unchanged (or {}), so flash data survives construction |
| Sessions.FlashSession.Get | src/FlashSession.ts:18-23 | returns the stored value (undefined when missing) and deletes the key in every case |
| Sessions.FlashSession.Set | src/FlashSession.ts:25-29 | the key maps to the value, other entries kept |
| Sessions.FlashSession.GetAll | src/FlashSession.ts:31-37 | the parent's value under the private key; missing or null reads as {} |
| Sessions.FlashSession.SetAll | src/FlashSession.ts:39-42 | writes the sub-bag through the parent's `set` under the private key |
| Sessions.FlashSession.Has | src/FlashSession.ts:44-46 | a non-consuming membership test |
| Sessions.FlashSession.Remove | src/FlashSession.ts:48-53 | deletes only the key, writing even when it was absent |
| Sessions.FlashSession.Clear | src/FlashSession.ts:55-57 | the sub-bag holds {} |
| Events.SpliceIndexNormalised | src/StateEventHandler.ts:14-17 | a negative index from -len on names the listener that many places from the end; below -len it names the first; from len on it removes nothing |
| Events.Spliced | src/StateEventHandler.ts:14-17 | one element is removed when the start is inside the list (a permutation minus that element), earlier ones keep their places, later ones move down by one |
| Events.RemovalShiftsLaterHandles | src/StateEventHandler.ts:10-17 | after an earlier listener is removed, a later listener's handle names the listener after it |
| Events.StateEventHandler.constructor | src/StateEventHandler.ts:5-8 | the registry starts empty |
| Events.StateEventHandler.Add | src/StateEventHandler.ts:10-12 | appends the listener and returns its index, the old length |
| Events.StateEventHandler.Remove | src/StateEventHandler.ts:14-17 | the list becomes its `splice(index, 1)` |
| Events.StateEventHandler.Call | src/StateEventHandler.ts:19-23 | every listener is invoked exactly once, in list order, with the value |

## Left out

- Browser storage: the handles are injected `Store` objects. Quota errors and other
  tabs' writes are not modelled.
- JSON text: a slot is a bag or malformed text, and the round trip of `JSON.stringify` and
  `JSON.parse` is taken as exact. The cases where it is not exact (`undefined` values,
  functions, special numbers) are not modelled.
- Sessions.Session.constructor, Sessions.Session.GetAll, Sessions.Session.Has,
  Sessions.Session.Get, Sessions.Session.Set, Sessions.Session.Start,
  Sessions.Session.Renew: a root slot that holds valid JSON that is not an object is
  read as {}, like a malformed slot. In the source, `null` or a primitive (a number, a
  string, a boolean) there behaves differently:
  - the constructor throws, because the expiring tier seeds its identity through `set`;
  - `has` and `set` throw a TypeError, since they use `in` on it (src/Session.ts:46, :77);
  - `start` and `renew(false)` throw when they write `session-id` into it (:36, :96),
    which strict-mode module code does for null and for primitives;
  - `get` throws for `null` (:58);
  - every tier operation that writes goes through `set`, and throws with it.
  The remaining methods of the session and its tiers inherit this reading of the slot as {}.
- NonPersisting.NonPersistingSession.GetAll, NonPersisting.NonPersistingSession.Has,
  NonPersisting.NonPersistingSession.Get, NonPersisting.NonPersistingSession.Set,
  NonPersisting.NonPersistingSession.Remove: a tab-scoped slot that holds valid JSON that
  is not an object is read as {}. In the source, `null`, a number or a boolean there
  behaves differently:
  - `has` throws (src/NonPersistingSession.ts:44), and `get` throws through it (:11);
  - `set` throws on its property write (:24);
  - `remove` throws for `null`; for a number or boolean it deletes nothing and writes the
    primitive back (:35-36), where the model writes {} without the key.
- An array in either slot is also read as {}. In the source it acts as an object keyed by
  its indices. A tab-scoped `set` on it writes back an array, and `JSON.stringify` drops
  the new key from it.
- Sessions.ExpiringSession.Get, Sessions.ExpiringSession.Has: a `null` record in the
  expiring sub-bag (set through the root's public `set`) makes the source throw a
  TypeError when it reads `data.expiry`. The model instead treats it as a live record
  whose value is undefined: Get returns None, Has returns true, and neither writes.
- Sessions.Session.ToObject: the source keeps the written object itself as `state` and
  returns it by reference, so a caller who mutates the result of `toObject()`, or an
  object it passed to `set`, changes later `toObject()` results without any write. The
  model's bags are values, so this aliasing is not captured.
- The clock: `Date.now()` is the `now` parameter. `clearAll` reads the clock twice; the
  model gives both reads the same instant.
- Numbers are unbounded integers. Fractional minutes, floating-point rounding, the range
  limit of `Date`, and numbers that render in exponential notation are not modelled.
- Expiry fields that are strings, arrays or objects: the model reads them as Invalid
  Dates, so these records never expire. The Date constructor in the source would read
  some of them as real dates: strings in a date format, and arrays with one element,
  such as `[2020]`, which converts to the string "2020".
- A tier key under the root key whose value is not an object (a number, a string): the
  model reads it as {}. In the source, such a value can throw or make the tier's writes
  have no effect.
- JavaScript `in` and the prototype chain: inherited names such as `toString` and the key
  `__proto__` are not modelled. Bags are plain maps.
- `delete this[key]` in `remove`: the model has no dynamic properties on the session
  object.
- Listener bodies: a callback is opaque. `Call` returns the list of invocations it makes,
  and does not model the handler argument passed to each callback, nor callbacks that
  throw or mutate the registry.
- `toJSON`, the `SessionException` type, the declared-only contracts (`listen`,
  `unlisten`, `dispatch`, `use`, `StateStorage`), the type declarations and the built
  bundles are not part of this model.
- Passing `undefined` as a value to `set` is not modelled, since the model's values are JSON values.

## Findings

| source | as written | input that shows it | evidently intended | confidence | as-written member | corrected member |
|---|---|---|---|---|---|---|
| src/Session.ts:164 | `remove` tests `this.hash(key)`. The class has no `hash` method, so every call throws a TypeError. Nothing is deleted, and so `revokeToken` and `removeUser` fail too whenever the persistent bag holds their key. | `set("a", 1)` then `remove("a")` | `this.has(key)`: delete a present key and reset the mirror | high, not executed | Sessions.Session.RemoveAsWritten | Sessions.Session.Remove |
