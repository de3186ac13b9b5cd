/**
 * Session identities `"<prefix>:<timestamp>"`, where the timestamp is `Date.now()`
 * interpolated into a template literal: the integer in plain decimal, with a minus sign
 * when negative. Parsing is the partner of rendering; the round trip shows that distinct
 * instants yield distinct identities.
 */
module Timestamps {

  const PersistentPrefix := "sess"
  const ExpiringPrefix := "sess-temp"

  function DigitChar(d: nat): char
    requires d < 10
  {
    ('0' as int + d) as char
  }

  function DigitValue(c: char): nat
  {
    if '0' <= c <= '9' then c as int - '0' as int else 0
  }

  /** Decimal digits of `n`, most significant first, no leading zeros. */
  function Decimal(n: nat): (s: string)
    ensures |s| > 0
    ensures forall i :: 0 <= i < |s| ==> '0' <= s[i] <= '9'
    ensures |s| > 1 ==> s[0] != '0'
    decreases n
  {
    if n < 10 then [DigitChar(n)] else Decimal(n / 10) + [DigitChar(n % 10)]
  }

  /** The value of a string of decimal digits, read left to right. */
  function ParseDecimal(s: string): nat
  {
    if s == [] then 0 else 10 * ParseDecimal(s[..|s| - 1]) + DigitValue(s[|s| - 1])
  }

  lemma {:induction false} DecimalRoundTrip(n: nat)
    ensures ParseDecimal(Decimal(n)) == n
  {
    if n >= 10 {
      var s := Decimal(n);
      assert s[..|s| - 1] == Decimal(n / 10);
      DecimalRoundTrip(n / 10);
    }
  }

  /** An integer as `${t}` renders it. */
  function Render(t: int): (s: string)
    ensures |s| > 0
    ensures s[0] == '-' <==> t < 0
  {
    if t < 0 then "-" + Decimal(-t) else Decimal(t)
  }

  function ParseInt(s: string): int
  {
    if |s| > 0 && s[0] == '-' then 0 - ParseDecimal(s[1..]) else ParseDecimal(s)
  }

  lemma {:induction false} RenderRoundTrip(t: int)
    ensures ParseInt(Render(t)) == t
  {
    if t < 0 {
      assert Render(t)[1..] == Decimal(-t);
      DecimalRoundTrip(-t);
    } else {
      assert Render(t)[0] != '-';
      DecimalRoundTrip(t);
    }
  }

  /** The identity string a session or tier creates at instant `t`. */
  function Identity(prefix: string, t: int): (id: string)
    ensures |id| > |prefix| + 1
  {
    prefix + ":" + Render(t)
  }

  /** An identity starts with its prefix and a colon, and the rest parses back to the instant. */
  lemma {:induction false} IdentityRoundTrip(prefix: string, t: int)
    ensures var id := Identity(prefix, t);
      && |id| > |prefix| + 1
      && id[..|prefix|] == prefix && id[|prefix|] == ':'
      && ParseInt(id[|prefix| + 1..]) == t
  {
    var id := Identity(prefix, t);
    assert id[|prefix| + 1..] == Render(t);
    RenderRoundTrip(t);
  }

  /** Renewing at a different instant always yields a different identity. */
  lemma DistinctInstantsDistinctIdentities(prefix: string, a: int, b: int)
    requires a != b
    ensures Identity(prefix, a) != Identity(prefix, b)
  {
    IdentityRoundTrip(prefix, a);
    IdentityRoundTrip(prefix, b);
  }

  /** Identities whose prefixes part ways before the first colon never coincide. */
  lemma PrefixesPartWays(p: string, q: string, a: int, b: int)
    requires |p| < |q| && q[|p|] != ':'
    ensures Identity(p, a) != Identity(q, b)
  {
    IdentityRoundTrip(p, a);
    IdentityRoundTrip(q, b);
    var ip, iq := Identity(p, a), Identity(q, b);
    assert ip[|p|] == ':';
    assert iq[|p|] == iq[..|q|][|p|] == q[|p|];
  }

  /** A persistent identity never equals a tier identity, whatever the two instants. */
  lemma PersistentAndExpiringIdentitiesDiffer(a: int, b: int)
    ensures Identity(PersistentPrefix, a) != Identity(ExpiringPrefix, b)
  {
    assert ExpiringPrefix[|PersistentPrefix|] == '-';
    PrefixesPartWays(PersistentPrefix, ExpiringPrefix, a, b);
  }
}
