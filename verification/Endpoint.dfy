/** The endpoint key under which the pool manager files a pool. */
module Endpoint {
  import opened Decimal

  const KEY_LEN: nat := 64

  datatype NodeAddr = NodeAddr(ip: string, port: nat)

  // What c_str() shows to snprintf: everything before the first NUL.
  function CStr(s: string): string {
    if s == "" || s[0] == '\0' then "" else [s[0]] + CStr(s[1..])
  }

  lemma {:induction false} CStrStops(s: string)
    ensures NulFree(CStr(s))
    ensures NulFree(s) ==> CStr(s) == s
  {
    if s != "" && s[0] != '\0' {
      CStrStops(s[1..]);
    }
  }

  predicate NulFree(s: string) {
    forall i :: 0 <= i < |s| ==> s[i] != '\0'
  }

  // "%s:%d"
  function EndpointText(a: NodeAddr): string {
    CStr(a.ip) + ":" + Digits(a.port)
  }

  lemma TextNulFree(a: NodeAddr)
    ensures NulFree(EndpointText(a))
  {
    CStrStops(a.ip);
    assert forall i :: 0 <= i < |Digits(a.port)| ==> IsDigit(Digits(a.port)[i]);
  }

  function Take(s: string, n: nat): (r: string)
    ensures r <= s && |r| == if |s| <= n then |s| else n
  {
    if |s| <= n then s else s[..n]
  }

  // A 64-character string of NULs whose front snprintf overwrites with at most 63 characters.
  function EndpointKey(a: NodeAddr): (key: string)
    ensures |key| == KEY_LEN
  {
    var t := EndpointText(a);
    seq(KEY_LEN, i => if 0 <= i < |t| && i < KEY_LEN - 1 then t[i] else '\0')
  }

  /** The key tells where its text ends: padding with NULs forgets nothing about a NUL-free text. */
  lemma KeyKeepsText(a: NodeAddr, b: NodeAddr)
    requires EndpointKey(a) == EndpointKey(b)
    ensures Take(EndpointText(a), KEY_LEN - 1) <= Take(EndpointText(b), KEY_LEN - 1)
  {
    TextNulFree(a);
    var t, u := Take(EndpointText(a), KEY_LEN - 1), Take(EndpointText(b), KEY_LEN - 1);
    forall i | 0 <= i < |t|
      ensures i < |u| && t[i] == u[i]
    {
      assert EndpointKey(a)[i] == t[i] != '\0';
      assert EndpointKey(b)[i] == if i < |u| then u[i] else '\0';
    }
    if t != "" {
      var last := t[|t| - 1];
      assert |t| - 1 < |u|;
    }
  }

  /** The text splits in one way only: the port is what follows the last colon. */
  lemma TextInjective(a: NodeAddr, b: NodeAddr)
    requires EndpointText(a) == EndpointText(b)
    ensures CStr(a.ip) == CStr(b.ip) && a.port == b.port
  {
    var t := EndpointText(a);
    var i, j := |CStr(a.ip)|, |CStr(b.ip)|;
    assert t[i] == ':' && t[j] == ':';
    assert t[i + 1..] == Digits(a.port);
    assert t[j + 1..] == Digits(b.port);
    assert forall k :: i < k < |t| ==> IsDigit(t[k]) by {
      assert forall k :: i < k < |t| ==> t[k] == Digits(a.port)[k - i - 1];
    }
    assert forall k :: j < k < |t| ==> IsDigit(t[k]) by {
      assert forall k :: j < k < |t| ==> t[k] == Digits(b.port)[k - j - 1];
    }
    assert t[..i] == CStr(a.ip) && t[..j] == CStr(b.ip);
    DigitsInjective(a.port, b.port);
  }

  lemma SameFrontSameKey(a: NodeAddr, b: NodeAddr)
    requires Take(EndpointText(a), KEY_LEN - 1) == Take(EndpointText(b), KEY_LEN - 1)
    ensures EndpointKey(a) == EndpointKey(b)
  {
    var t, u := EndpointText(a), EndpointText(b);
    forall i | 0 <= i < KEY_LEN
      ensures EndpointKey(a)[i] == EndpointKey(b)[i]
    {
      if i < KEY_LEN - 1 && i < |t| {
        assert Take(t, KEY_LEN - 1)[i] == t[i] && Take(u, KEY_LEN - 1)[i] == u[i];
      }
    }
  }

  /** Exactly when two endpoints share a key: when the first 63 characters of their texts agree. */
  lemma KeysEqualIff(a: NodeAddr, b: NodeAddr)
    ensures EndpointKey(a) == EndpointKey(b)
       <==> Take(EndpointText(a), KEY_LEN - 1) == Take(EndpointText(b), KEY_LEN - 1)
  {
    if EndpointKey(a) == EndpointKey(b) {
      KeyKeepsText(a, b);
      KeyKeepsText(b, a);
    } else if Take(EndpointText(a), KEY_LEN - 1) == Take(EndpointText(b), KEY_LEN - 1) {
      SameFrontSameKey(a, b);
    }
  }

  /** For NUL-free hosts (colons allowed) whose text fits, the key is the host, a colon and the port before
      NULs, and equal keys mean equal endpoints. */
  lemma KeyInjective(a: NodeAddr, b: NodeAddr)
    requires NulFree(a.ip) && NulFree(b.ip)
    requires |EndpointText(a)| < KEY_LEN && |EndpointText(b)| < KEY_LEN
    ensures EndpointKey(a) == EndpointKey(b) <==> a == b
    ensures EndpointKey(a)[..|EndpointText(a)|] == a.ip + ":" + Digits(a.port)
    ensures forall i :: |EndpointText(a)| <= i < 64 ==> EndpointKey(a)[i] == '\0'
  {
    CStrStops(a.ip);
    KeysEqualIff(a, b);
    if EndpointKey(a) == EndpointKey(b) {
      CStrStops(a.ip);
      CStrStops(b.ip);
      TextInjective(a, b);
    }
  }

  /** Past 63 characters the port no longer counts: such a host has one key for all its ports. */
  lemma LongHostsCollide(host: string, p: nat, q: nat)
    requires NulFree(host) && |host| >= 63
    ensures EndpointKey(NodeAddr(host, p)) == EndpointKey(NodeAddr(host, q))
  {
    CStrStops(host);
    assert Take(EndpointText(NodeAddr(host, p)), KEY_LEN - 1) == host[..KEY_LEN - 1];
    assert Take(EndpointText(NodeAddr(host, q)), KEY_LEN - 1) == host[..KEY_LEN - 1];
    SameFrontSameKey(NodeAddr(host, p), NodeAddr(host, q));
  }
}
