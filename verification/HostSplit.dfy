/** How Address::Lookup splits `host` into the node and the service it resolves
    (src/address.cpp:75-108; section 3.2.2 of RFC 3986). */
module HostSplit {
  import opened Types
  import opened Ipv6Text

  /** memchr: the first `c` at or after `i`, or the end. */
  function Find(t: string, c: char, i: nat): (k: nat)
    requires i <= |t|
    ensures i <= k <= |t| && (k < |t| ==> t[k] == c)
    ensures forall j :: i <= j < k ==> t[j] != c
    decreases |t| - i
  {
    if i == |t| || t[i] == c then i else Find(t, c, i + 1)
  }

  /** What the split comes to: `[node]` with an optional `:service` behind it; or
      the text around the only colon; or the whole text. */
  function Divide(host: string): (string, Option<string>) {
    if host != "" && host[0] == '[' && 1 < Find(host, ']', 1) < |host| then
      var e := Find(host, ']', 1);
      (host[1..e], if e + 1 < |host| && host[e + 1] == ':' then Some(host[e + 2..]) else None)
    else
      var c := Find(host, ':', 0);
      if c == |host| then (host, None)
      else if Find(host, ':', c + 1) < |host| then (host, Some(host[c..]))
      else (if c == 0 then host else host[..c], Some(host[c + 1..]))
  }

  method Split(host: string) returns (node: string, service: Option<string>)
    ensures (node, service) == Divide(host)
  {
    node, service := "", None;
    if host != "" && host[0] == '[' {
      var end := Find(host, ']', 1);
      if end < |host| {
        if end + 1 < |host| && host[end + 1] == ':' {
          service := Some(host[end + 2..]);
        }
        node := host[1..end];
      }
    }
    if node == "" {
      var colon := Find(host, ':', 0);
      service := if colon < |host| then Some(host[colon..]) else None;
      if service.Some? {
        if Find(host, ':', colon + 1) == |host| {
          node := host[..colon];
          service := Some(host[colon + 1..]);
        }
      }
    }
    if node == "" {
      node := host;
    }
  }

  predicate Without(t: string, c: char) {
    forall i :: 0 <= i < |t| ==> t[i] != c
  }

  /** The first `c` is where it was put. */
  lemma FindPut(a: string, c: char, b: string, i: nat)
    requires i <= |a| && forall j :: i <= j < |a| ==> a[j] != c
    ensures Find(a + [c] + b, c, i) == |a|
  {
    var t, k := a + [c] + b, Find(a + [c] + b, c, i);
    assert t[|a|] == c;
    assert forall j :: i <= j < |a| ==> t[j] == a[j];
  }

  lemma FindNone(t: string, c: char, i: nat)
    requires i <= |t| && forall j :: i <= j < |t| ==> t[j] != c
    ensures Find(t, c, i) == |t|
  {
  }

  /** `[node]:service` gives exactly the node and the service. */
  lemma BracketedWithService(node: string, service: string)
    requires node != "" && Without(node, ']')
    ensures Divide("[" + node + "]:" + service) == (node, Some(service))
  {
    var t := "[" + node + "]:" + service;
    assert t == ("[" + node) + [']'] + (":" + service);
    FindPut("[" + node, ']', ":" + service, 1);
    hide Find;
    assert t[1..1 + |node|] == node && t[|node| + 3..] == service;
  }

  /** Anything else behind the closing bracket is ignored. */
  lemma BracketedThen(node: string, rest: string)
    requires node != "" && Without(node, ']') && (rest != "" ==> rest[0] != ':')
    ensures Divide("[" + node + "]" + rest) == (node, None)
  {
    var t := "[" + node + "]" + rest;
    assert t == ("[" + node) + [']'] + rest;
    FindPut("[" + node, ']', rest, 1);
    hide Find;
    assert t[1..1 + |node|] == node;
    assert rest != "" ==> t[|node| + 2] == rest[0];
  }

  /** Not in brackets: no opening one in front, or none that closes around a text. */
  predicate Unbracketed(host: string) {
    host == "" || host[0] != '[' || (|host| > 1 && host[1] == ']') || forall i :: 1 <= i < |host| ==> host[i] != ']'
  }

  /** Then the text is divided at its first colon, if that is the only one; with the
      colon in front the whole text stays the node, and with more colons it does too
      and the rest from the first colon on is left behind as the service. */
  lemma UnbracketedWritten(a: string, b: string)
    requires Without(a, ':') && Unbracketed(a + ":" + b)
    ensures Divide(a + ":" + b) ==
            if Without(b, ':') then (if a == "" then ":" + b else a, Some(b)) else (a + ":" + b, Some(":" + b))
  {
    var t := a + ":" + b;
    assert t == a + [':'] + b;
    FindPut(a, ':', b, 0);
    NoBracket(t);
    if Without(b, ':') {
      FindNone(t, ':', |a| + 1);
    } else {
      var j :| 0 <= j < |b| && b[j] == ':';
      assert t[|a| + 1 + j] == ':';
    }
    hide Find;
    assert t[..|a|] == a && t[|a| + 1..] == b && t[|a|..] == ":" + b;
    assert a == "" ==> t == ":" + b;
  }

  lemma UnbracketedAlone(host: string)
    requires Without(host, ':') && Unbracketed(host)
    ensures Divide(host) == (host, None)
  {
    FindNone(host, ':', 0);
    NoBracket(host);
  }

  lemma NoBracket(host: string)
    requires Unbracketed(host)
    ensures host != "" && host[0] == '[' ==> Find(host, ']', 1) == 1 || Find(host, ']', 1) == |host|
  {
    if host != "" && host[0] == '[' && !(|host| > 1 && host[1] == ']') {
      FindNone(host, ']', 1);
    }
  }

  lemma BracketedAlone(node: string)
    requires node != "" && Without(node, ']')
    ensures Divide("[" + node + "]") == (node, None)
  {
    var t := "[" + node + "]";
    assert t == ("[" + node) + [']'] + "";
    FindPut("[" + node, ']', "", 1);
    hide Find;
    assert t[1..1 + |node|] == node;
  }

  /** `node:service` without brackets and further colons gives both. */
  lemma PlainWithService(node: string, service: string)
    requires node != "" && node[0] != '[' && Without(node, ':') && Without(service, ':')
    ensures Divide(node + ":" + service) == (node, Some(service))
  {
    var t := node + ":" + service;
    assert t == node + [':'] + service;
    FindPut(node, ':', service, 0);
    FindNone(t, ':', |node| + 1);
    hide Find;
    assert t[..|node|] == node && t[|node| + 1..] == service;
  }

  // ------------------------------------------------------- texts without brackets

  /** `host[:port]` by the generic syntax, with an unbracketed text of several
      colons taken as an address alone. */
  function Intended(host: string): (string, Option<string>) {
    var c := Find(host, ':', 0);
    if c == |host| || Find(host, ':', c + 1) < |host| then (host, None)
    else (host[..c], Some(host[c + 1..]))
  }

  /** How many colons there are. */
  function Colons(t: string): nat {
    if t == "" then 0 else One(t[0] == ':') + Colons(t[1..])
  }

  lemma {:induction false} NoColons(t: string)
    ensures Colons(t) == 0 <==> Without(t, ':')
  {
    if t != "" {
      NoColons(t[1..]);
      assert forall i :: 0 <= i < |t[1..]| ==> t[1..][i] == t[i + 1];
      if Without(t[1..], ':') && t[0] != ':' {
        assert forall i :: 0 < i < |t| ==> t[i] == t[1..][i - 1];
      }
    }
  }

  lemma {:induction false} ColonsAfter(t: string, c: nat)
    requires c < |t| && t[c] == ':' && forall i :: 0 <= i < c ==> t[i] != ':'
    ensures Colons(t) == 1 + Colons(t[c + 1..])
  {
    if c > 0 {
      assert t[1..][c..] == t[c + 1..];
      ColonsAfter(t[1..], c - 1);
    }
  }

  /** The first colon, and whether there is another, tell how many there are. */
  lemma ColonCases(t: string)
    ensures var c := Find(t, ':', 0);
            && (c == |t| <==> Colons(t) == 0)
            && (c < |t| ==> (Find(t, ':', c + 1) < |t| <==> Colons(t) >= 2))
  {
    var c := Find(t, ':', 0);
    NoColons(t);
    if c < |t| {
      ColonsAfter(t, c);
      NoColons(t[c + 1..]);
      var d := Find(t, ':', c + 1);
      assert d < |t| ==> t[c + 1..][d - c - 1] == ':';
      assert forall j :: c < j < |t| ==> t[j] == t[c + 1..][j - c - 1];
    }
  }

  /** For a text not in brackets the split is the intended one exactly when there
      is at most one colon and it does not come first: with more, the pointer to
      the first colon is left behind as the service. */
  lemma UnbracketedIff(host: string)
    requires host == "" || host[0] != '['
    ensures Divide(host) == Intended(host) <==> Colons(host) == 0 || (Colons(host) == 1 && host[0] != ':')
  {
    ColonCases(host);
    hide Find;
    var c := Find(host, ':', 0);
    if c == 0 && c < |host| {
      assert host[..0] != host;
    }
  }

  /** An address without brackets leaves itself behind as the service. */
  lemma UnbracketedGoesWrong()
    ensures Divide("::1") == ("::1", Some("::1")) && Intended("::1") == ("::1", None)
  {
    assert Find("::1", ':', 0) == 0 && Find("::1", ':', 1) == 1;
  }

  // ----------------------------------------------------------- printed addresses

  lemma {:induction false} JoinedChars(g: seq<nat>)
    ensures Without(Joined(g), ']')
  {
    if |g| > 0 {
      NumeralDigits(g[|g| - 1], 16);
      assert DigitOf(']').None?;
      if |g| > 1 {
        JoinedChars(g[..|g| - 1]);
      }
    }
  }

  lemma CompressedChars(g: seq<nat>)
    requires Address(g)
    ensures Without(Compressed(g), ']') && Compressed(g) != ""
  {
    JoinedChars(g);
    JoinedTidy(g);
    JoinedChars(g[..FirstZero(g)]);
    JoinedChars(g[RunEnd(g, FirstZero(g))..]);
  }

  /** The split of a printed address gives back exactly its address and its port. */
  lemma PrintedSplits(bytes: seq<Byte>, port: nat)
    requires |bytes| == 16
    ensures var (node, service) := Divide("[" + Compressed(GroupsOf(bytes)) + "]:" + Dec(port));
            && Expand(node).Some? && |Expand(node).value| == 8
            && (forall i :: 0 <= i < 8 ==>
                  Expand(node).value[i] == 256 * (bytes[2 * i] as int) + bytes[2 * i + 1] as int)
            && service.Some? && NumberOf(service.value, 10) == Some(port)
  {
    var g := GroupsOf(bytes);
    assert |g| == 8 && forall i :: 0 <= i < 8 ==> g[i] == 256 * (bytes[2 * i] as int) + bytes[2 * i + 1] as int;
    hide Compressed, Divide, Expand, NumberOf, Numeral, GroupsOf, Address;
    PrintedParts(bytes, port);
  }

  lemma PrintedParts(bytes: seq<Byte>, port: nat)
    requires |bytes| == 16
    ensures var (node, service) := Divide("[" + Compressed(GroupsOf(bytes)) + "]:" + Dec(port));
            Expand(node) == Some(GroupsOf(bytes)) && service.Some? && NumberOf(service.value, 10) == Some(port)
  {
    var g := GroupsOf(bytes);
    hide Compressed, Divide, Expand, NumberOf, Numeral, GroupsOf;
    CompressedChars(g);
    BracketedWithService(Compressed(g), Dec(port));
    RoundTrip(g);
    NumeralValue(port, 10);
  }
}
