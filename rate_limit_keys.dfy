/** Derivation of the bucket key a request is counted under (`generateKey`). */
module RateLimitKeys {
  import opened RateLimitTypes
  import opened Decimal

  /** How a template literal renders an absent (undefined) argument. */
  const Undefined: string := "undefined"

  function UserIdText(userId: Option<nat>): string {
    match userId
    case Some(n) => NatToString(n)
    case None => Undefined
  }

  function FieldText(field: Option<string>): string {
    match field
    case Some(s) => s
    case None => Undefined
  }

  predicate NoColon(s: string) {
    forall i :: 0 <= i < |s| ==> s[i] != ':'
  }

  /** The key type a bucket key was derived for, read back from its prefix. */
  function KeyTypeOf(key: string): Option<RateLimitType> {
    if key == "global" then Some(Global)
    else if "user:" <= key then Some(PerUser)
    else if "ip:" <= key then Some(PerIp)
    else if "endpoint:" <= key then Some(PerEndpoint)
    else if "combined:" <= key then Some(Combined)
    else None
  }

  /** The bucket key for a key type and the identity fields that type uses;
      the key always says which type it was derived for. */
  function GenerateKey(t: RateLimitType, userId: Option<nat>, ip: Option<string>, endpoint: Option<string>): (key: string)
    ensures KeyTypeOf(key) == Some(t)
  {
    match t
    case Global => "global"
    case PerUser =>
      var key := "user:" + UserIdText(userId);
      assert key[0] == 'u' && key[..5] == "user:";
      key
    case PerIp =>
      var key := "ip:" + FieldText(ip);
      assert key[0] == 'i' && key[..3] == "ip:";
      key
    case PerEndpoint =>
      var key := "endpoint:" + FieldText(endpoint);
      assert key[0] == 'e' && key[..9] == "endpoint:";
      key
    case Combined =>
      var key := "combined:" + (UserIdText(userId) + ":" + (FieldText(ip) + ":" + FieldText(endpoint)));
      assert key[0] == 'c' && key[..9] == "combined:";
      key
  }

  /** Keys of different types never share a bucket. */
  lemma DistinctTypesDistinctKeys(
    t1: RateLimitType, u1: Option<nat>, ip1: Option<string>, e1: Option<string>,
    t2: RateLimitType, u2: Option<nat>, ip2: Option<string>, e2: Option<string>)
    requires t1 != t2
    ensures GenerateKey(t1, u1, ip1, e1) != GenerateKey(t2, u2, ip2, e2)
  {
  }

  /** The global bucket is one key, whatever identity is supplied. */
  lemma GlobalKeyIgnoresIdentity(u: Option<nat>, ip: Option<string>, e: Option<string>)
    ensures GenerateKey(Global, u, ip, e) == "global"
  {
  }

  /** Two per-user keys coincide exactly when the user ids do; ip and endpoint play no part. */
  lemma PerUserKeyIdentifiesUser(
    u1: nat, ip1: Option<string>, e1: Option<string>,
    u2: nat, ip2: Option<string>, e2: Option<string>)
    ensures GenerateKey(PerUser, Some(u1), ip1, e1) == GenerateKey(PerUser, Some(u2), ip2, e2) <==> u1 == u2
  {
    var k1, k2 := GenerateKey(PerUser, Some(u1), ip1, e1), GenerateKey(PerUser, Some(u2), ip2, e2);
    assert k1[5..] == NatToString(u1) && k2[5..] == NatToString(u2);
    NatToStringInjective(u1, u2);
  }

  /** Two per-ip keys coincide exactly when the ips do; user id and endpoint play no part. */
  lemma PerIpKeyIdentifiesIp(
    u1: Option<nat>, ip1: string, e1: Option<string>,
    u2: Option<nat>, ip2: string, e2: Option<string>)
    ensures GenerateKey(PerIp, u1, Some(ip1), e1) == GenerateKey(PerIp, u2, Some(ip2), e2) <==> ip1 == ip2
  {
    var k1, k2 := GenerateKey(PerIp, u1, Some(ip1), e1), GenerateKey(PerIp, u2, Some(ip2), e2);
    assert k1[3..] == ip1 && k2[3..] == ip2;
  }

  /** Two per-endpoint keys coincide exactly when the endpoints do; user id and ip play no part. */
  lemma PerEndpointKeyIdentifiesEndpoint(
    u1: Option<nat>, ip1: Option<string>, e1: string,
    u2: Option<nat>, ip2: Option<string>, e2: string)
    ensures GenerateKey(PerEndpoint, u1, ip1, Some(e1)) == GenerateKey(PerEndpoint, u2, ip2, Some(e2)) <==> e1 == e2
  {
    var k1, k2 := GenerateKey(PerEndpoint, u1, ip1, Some(e1)), GenerateKey(PerEndpoint, u2, ip2, Some(e2));
    assert k1[9..] == e1 && k2[9..] == e2;
  }

  /** In `a + ":" + x` with no ':' in `a`, the first ':' stands at index |a|. */
  lemma FirstColonAt(a: string, x: string)
    requires NoColon(a)
    ensures (a + ":" + x)[|a|] == ':'
    ensures forall i :: 0 <= i < |a| ==> (a + ":" + x)[i] != ':'
  {
  }

  /** In `x + ":" + a` with no ':' in `a`, the last ':' stands |a| places from the end. */
  lemma LastColonAt(x: string, a: string)
    requires NoColon(a)
    ensures (x + ":" + a)[|x|] == ':'
    ensures forall i :: |x| < i < |x| + 1 + |a| ==> (x + ":" + a)[i] != ':'
  {
  }

  /** Splitting at the first ':' is unambiguous when the head has no ':'. */
  lemma SplitAtFirstColon(a: string, x: string, b: string, y: string)
    requires NoColon(a) && NoColon(b)
    ensures a + ":" + x == b + ":" + y <==> a == b && x == y
  {
    var s, t := a + ":" + x, b + ":" + y;
    if s == t {
      FirstColonAt(a, x);
      FirstColonAt(b, y);
      assert |a| == |b|;
      assert a == s[..|a|] && b == t[..|b|];
      assert x == s[|a| + 1..] && y == t[|b| + 1..];
    }
  }

  /** Splitting at the last ':' is unambiguous when the tail has no ':'. */
  lemma SplitAtLastColon(x: string, a: string, y: string, b: string)
    requires NoColon(a) && NoColon(b)
    ensures x + ":" + a == y + ":" + b <==> x == y && a == b
  {
    var s, t := x + ":" + a, y + ":" + b;
    if s == t {
      LastColonAt(x, a);
      LastColonAt(y, b);
      assert |x| == |y|;
      assert a == s[|x| + 1..] && b == t[|y| + 1..];
      assert x == s[..|x|] && y == t[..|y|];
    }
  }

  /** Equal strings after a shared prefix are equal. */
  lemma PrefixCancel(p: string, x: string, y: string)
    ensures p + x == p + y <==> x == y
  {
    if p + x == p + y {
      assert x == (p + x)[|p|..] && y == (p + y)[|p|..];
    }
  }

  /** A combined key identifies its user, ip and endpoint, provided endpoints carry no ':'
      (ips may: an IPv6 address is recovered because the endpoint is split off last). */
  lemma CombinedKeyIdentifiesCaller(
    u1: nat, ip1: string, e1: string,
    u2: nat, ip2: string, e2: string)
    requires NoColon(e1) && NoColon(e2)
    ensures GenerateKey(Combined, Some(u1), Some(ip1), Some(e1)) == GenerateKey(Combined, Some(u2), Some(ip2), Some(e2))
            <==> u1 == u2 && ip1 == ip2 && e1 == e2
  {
    var n1, n2 := NatToString(u1), NatToString(u2);
    PrefixCancel("combined:", n1 + ":" + (ip1 + ":" + e1), n2 + ":" + (ip2 + ":" + e2));
    assert NoColon(n1) && NoColon(n2);
    SplitAtFirstColon(n1, ip1 + ":" + e1, n2, ip2 + ":" + e2);
    SplitAtLastColon(ip1, e1, ip2, e2);
    NatToStringInjective(u1, u2);
  }

  /** Without that proviso two callers can share a combined bucket. */
  lemma CombinedKeyCollision()
    ensures GenerateKey(Combined, Some(1), Some("a:b"), Some("c")) == GenerateKey(Combined, Some(1), Some("a"), Some("b:c"))
  {
  }

  /** The single-field keys the service produces for the identities it is exercised with. */
  lemma SingleFieldKeyExamples()
    ensures GenerateKey(Global, None, None, None) == "global"
    ensures GenerateKey(PerUser, Some(123), None, None) == "user:123"
    ensures GenerateKey(PerIp, None, Some("192.168.1.1"), None) == "ip:192.168.1.1"
    ensures GenerateKey(PerEndpoint, None, None, Some("/api/test")) == "endpoint:/api/test"
  {
    NatToStringExample();
  }

  /** The combined key the service produces for a user, an ip and an endpoint, in that order. */
  lemma CombinedKeyExample()
    ensures GenerateKey(Combined, Some(123), Some("192.168.1.1"), Some("/api/test")) == "combined:123:192.168.1.1:/api/test"
  {
    NatToStringExample();
  }
}
