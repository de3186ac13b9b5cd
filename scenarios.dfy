/**
 * Client code that uses only the contracts of the session classes, over fresh in-memory
 * storage handles. Each method walks one usage scenario and asserts what a caller can
 * rely on at every step.
 */
module Scenarios {
  import opened Values
  import opened Storage
  import opened Timestamps
  import opened Sessions
  import Events
  import NonPersisting

  method NewSession(now: int) returns (s: Session)
    ensures s.Valid() && fresh(s.storage) && fresh(s.nonpersisting.storage)
    ensures s.key == DefaultStoreKey && s.tokenKey == DefaultTokenKey
    ensures s.Data() == map[ExpiringTierKey := Obj(map[SessionIdKey := Str(Identity(ExpiringPrefix, now))]),
                            FlashTierKey := Obj(map[])]
    ensures s.nonpersisting.Data() == map[]
  {
    var local := new Store(map[]);
    var tab := new Store(map[]);
    s := new Session("", "", local, tab, now);
    RootKeysDistinct();
  }

  /** The default token key is none of the root's own keys. */
  lemma TokenKeyIsPayload()
    ensures DefaultTokenKey != SessionIdKey && DefaultTokenKey != FlashTierKey && DefaultTokenKey != ExpiringTierKey
    ensures !Reserved(DefaultTokenKey)
  {
    assert DefaultTokenKey[0] != FlashTierKey[0];
    assert |DefaultTokenKey| != |SessionIdKey| && |DefaultTokenKey| != |ExpiringTierKey|;
  }

  /**
   * On an empty store, the first `Set` does not leave an identity behind (the snapshot
   * taken before `start()` overwrites it); `Renew(false)` then creates one and keeps "a".
   */
  method IdentityLostThenRenewed(t0: int, t1: int)
  {
    var s := NewSession(t0);
    s.Set("a", Num(1), t0);
    var a := s.Get("a");
    assert a == Num(1);
    RootKeysDistinct();
    var hasId := s.Has(SessionIdKey);
    assert !hasId;

    s.Renew(false, t1);
    var id1 := s.Id();
    assert id1 == Str(Identity(PersistentPrefix, t1));
    a := s.Get("a");
    assert a == Num(1);
  }

  /** `Clear` drops every key and installs an identity that differs from the one before. */
  method ClearReplacesIdentity(t0: int, t1: int, t2: int)
    requires t1 != t2
  {
    var s := NewSession(t0);
    s.Start(t1);
    s.Set("a", Num(1), t1);
    var id1 := s.Id();
    assert id1 == Str(Identity(PersistentPrefix, t1));

    s.Clear(t2);
    var a := s.Get("a");
    assert a == Null;
    var id2 := s.Id();
    DistinctInstantsDistinctIdentities(PersistentPrefix, t1, t2);
    assert id2 == Str(Identity(PersistentPrefix, t2)) && id2 != id1;
  }

  /** Writing a reserved key leaves the identity as it was. */
  method ReservedKeyIgnored(t0: int, t1: int)
  {
    var s := NewSession(t0);
    s.Start(t0);
    var before := s.Id();
    s.Set(SessionIdKey, Str("x"), t1);
    s.Set("key", Str("x"), t1);
    var after := s.Id();
    assert after == before == Str(Identity(PersistentPrefix, t0));
  }

  /** A flash entry survives `Has` and is gone after the first `Get`. */
  method FlashReadOnce(now: int)
  {
    var s := NewSession(now);
    var flash := s.flash;
    flash.Set("msg", Str("hi"), now);
    var present := flash.Has("msg");
    assert present;
    var msg := flash.Get("msg", now);
    assert msg == Some(Str("hi"));
    present := flash.Has("msg");
    assert !present;
    msg := flash.Get("msg", now);
    assert msg == None;
  }

  /** An expiring entry is readable up to and including its expiry instant, and evicted after it. */
  method ExpiryBoundary(now: int, minutes: int)
  {
    var s := NewSession(now);
    var temp := s.temp;
    var deadline := now + minutes * 60000;
    temp.Set("otp", Num(42), minutes, now);
    var v := temp.Get("otp", deadline);
    assert v == Some(Num(42));
    var live := temp.Has("otp", deadline + 1);
    assert !live;
    v := temp.Get("otp", deadline);
    assert v == Some(Null);
  }

  /** A token kept for the tab only is found by the getters but is absent from the persistent bag. */
  method TabScopedToken(now: int)
  {
    var s := NewSession(now);
    TokenKeyIsPayload();
    s.SetToken("abc", false, now);
    var has := s.HasToken();
    assert has;
    var token := s.Token();
    assert token == Str("abc");
    assert DefaultTokenKey !in s.Data();

    s.RevokeToken();
    has := s.HasToken();
    assert !has;
  }

  /** As written, `remove` throws before touching storage; the corrected one deletes the key. */
  method RemoveTypo(now: int)
  {
    var s := NewSession(now);
    s.Set("a", Num(1), now);
    var outcome := s.RemoveAsWritten("a");
    assert outcome.Threw?;
    var present := s.Has("a");
    assert present;
    s.Remove("a");
    present := s.Has("a");
    assert !present;
    var mirror := s.ToObject();
    assert mirror == map[];
  }

  /** Removing an earlier listener shifts the handles of the later ones. */
  method HandlesShift(a: Events.Callback, b: Events.Callback, c: Events.Callback)
  {
    var h := new Events.StateEventHandler("a");
    var ha := h.Add(a);
    var hb := h.Add(b);
    var hc := h.Add(c);
    assert ha == 0 && hb == 1 && hc == 2;
    h.Remove(ha);
    assert h.listeners == [b, c];
    h.Remove(hc);
    assert h.listeners == [b, c];
    var calls := h.Call(Null);
    assert calls == [Events.Invocation(b, Null), Events.Invocation(c, Null)];
    h.Remove(-1);
    assert h.listeners == [b];
  }
}
