/** Which deployment a host name stands for: the gateway's reading of it and the tunnel server's. */
module HostRouting {

  /** Position of the first `c` in `s`, or -1. */
  function Index(s: string, c: char): (i: int)
    ensures -1 <= i < |s|
    ensures i == -1 ==> c !in s
    ensures 0 <= i ==> s[i] == c && c !in s[..i]
  {
    if s == [] then -1
    else if s[0] == c then 0
    else
      var i := Index(s[1..], c);
      if i == -1 then -1 else
        assert s[..i + 1] == [s[0]] + s[1..][..i];
        i + 1
  }

  lemma {:induction false} IndexUnique(s: string, c: char, i: nat)
    requires i < |s| && s[i] == c && c !in s[..i]
    ensures Index(s, c) == i
  {
    assert s[..i] + s[i..] == s;
    if i > 0 {
      assert s[..i][0] == s[0];
      assert s[1..][..i - 1] == s[..i][1..];
      IndexUnique(s[1..], c, i - 1);
    }
  }

  lemma IndexAbsent(s: string, c: char)
    requires c !in s
    ensures Index(s, c) == -1
  {}

  function WithoutPort(host: string): string {
    if Index(host, ':') == -1 then host else host[..Index(host, ':')]
  }

  predicate HasSuffix(s: string, suffix: string) {
    |suffix| <= |s| && s[|s| - |suffix|..] == suffix
  }

  /** `extractSubdomain` of cmd/gateway/main.go. */
  function GatewaySubdomain(host: string, baseDomain: string): string {
    var h := WithoutPort(host);
    var suffix := "." + baseDomain;
    if HasSuffix(h, suffix) then
      var subdomain := h[..|h| - |suffix|];
      if subdomain != "www" && subdomain != "" then subdomain else ""
    else ""
  }

  /** `extractSubdomain` of internal/tunnel/server.go. */
  function ServerSubdomain(host: string, baseDomain: string): string {
    var h := WithoutPort(host);
    var suffix := "." + baseDomain;
    if |h| > |suffix| && h[|h| - |suffix|..] == suffix then h[..|h| - |suffix|] else ""
  }

  /** `indexOf` of internal/tunnel/server.go. */
  method IndexOf(s: string, c: char) returns (i: int)
    ensures i == Index(s, c)
  {
    i := 0;
    while i < |s|
      invariant 0 <= i <= |s| && c !in s[..i]
    {
      if s[i] == c {
        IndexUnique(s, c, i);
        return i;
      }
      i := i + 1;
    }
    assert s[..|s|] == s;
    IndexAbsent(s, c);
    return -1;
  }

  method ExtractSubdomain(host: string, baseDomain: string) returns (subdomain: string)
    ensures subdomain == ServerSubdomain(host, baseDomain)
  {
    var h := host;
    var i := IndexOf(h, ':');
    if i >= 0 {
      h := h[..i];
    }
    var suffix := "." + baseDomain;
    if |h| > |suffix| && h[|h| - |suffix|..] == suffix {
      return h[..|h| - |suffix|];
    }
    return "";
  }

  /** The host without its port: up to the first colon. */
  lemma WithoutPortMeans(host: string)
    ensures var h := WithoutPort(host);
            ':' !in h && |h| <= |host| && host == h + host[|h|..] && (|h| < |host| ==> host[|h|] == ':')
  {
    var i := Index(host, ':');
    assert host[..|host|] == host;
    if i != -1 {
      assert host == host[..i] + host[i..];
    }
  }

  /**
   What the gateway reads from a host: a deployment's ID exactly if the host is that ID, a dot and the base domain,
   perhaps with a colon and more behind, and the ID is not `www`.
   */
  lemma GatewayReadsIff(host: string, baseDomain: string, id: string)
    requires id != ""
    ensures GatewaySubdomain(host, baseDomain) == id <==>
            && id != "www" && ':' !in id && ':' !in baseDomain
            && exists rest :: host == id + "." + baseDomain + rest && (rest == "" || rest[0] == ':')
  {
    if GatewaySubdomain(host, baseDomain) == id {
      ReadFromHost(host, baseDomain, id);
    }
    if rest :| host == id + "." + baseDomain + rest && (rest == "" || rest[0] == ':') {
      if ':' !in id && ':' !in baseDomain && id != "www" {
        HostIsRead(host, baseDomain, id, rest);
      }
    }
  }

  lemma ReadFromHost(host: string, baseDomain: string, id: string)
    requires id != "" && GatewaySubdomain(host, baseDomain) == id
    ensures id != "www" && ':' !in id && ':' !in baseDomain
    ensures exists rest :: host == id + "." + baseDomain + rest && (rest == "" || rest[0] == ':')
  {
    var h := WithoutPort(host);
    WithoutPortMeans(host);
    assert h == h[..|h| - |"." + baseDomain|] + ("." + baseDomain) == id + ("." + baseDomain) == id + "." + baseDomain;
    assert host == id + "." + baseDomain + host[|h|..];
    NoColonInParts(id, baseDomain);
  }

  lemma HostIsRead(host: string, baseDomain: string, id: string, rest: string)
    requires id != "" && id != "www" && ':' !in id && ':' !in baseDomain
    requires host == id + "." + baseDomain + rest && (rest == "" || rest[0] == ':')
    ensures GatewaySubdomain(host, baseDomain) == id
  {
    var name := id + "." + baseDomain;
    assert ':' !in name;
    if rest == "" {
      assert host == name;
      IndexAbsent(host, ':');
    } else {
      assert host[..|name|] == name && host[|name|] == ':';
      IndexUnique(host, ':', |name|);
    }
    var h := WithoutPort(host);
    assert h == name == id + ("." + baseDomain);
    assert h[..|h| - |"." + baseDomain|] == id;
  }

  lemma NoColonInParts(id: string, baseDomain: string)
    requires ':' !in id + "." + baseDomain
    ensures ':' !in id && ':' !in baseDomain
  {
    var name := id + "." + baseDomain;
    assert forall i :: 0 <= i < |id| ==> name[i] == id[i];
    assert forall i :: 0 <= i < |baseDomain| ==> name[|id| + 1 + i] == baseDomain[i];
    assert forall i :: 0 <= i < |name| ==> name[i] in name;
  }

  /** The two readings agree on every host and base domain, but for what the gateway makes of `www`. */
  lemma ReadingsAgree(host: string, baseDomain: string)
    ensures GatewaySubdomain(host, baseDomain) ==
            if ServerSubdomain(host, baseDomain) == "www" then "" else ServerSubdomain(host, baseDomain)
  {
    var h := WithoutPort(host);
    var suffix := "." + baseDomain;
    if |h| == |suffix| {
      assert h[..0] == "";
    }
  }

  /** The host name of a deployment, with its optional `:port`; section 7.2 of RFC 9110. */
  function Host(id: string, baseDomain: string, port: string): string {
    id + "." + baseDomain + (if port == "" then "" else ":" + port)
  }

  lemma WithoutPortOfHost(id: string, baseDomain: string, port: string)
    requires ':' !in id && ':' !in baseDomain
    ensures WithoutPort(Host(id, baseDomain, port)) == id + "." + baseDomain
  {
    var name := id + "." + baseDomain;
    assert ':' !in name;
    if port == "" {
      assert Host(id, baseDomain, port) == name;
      IndexAbsent(name, ':');
    } else {
      var host := Host(id, baseDomain, port);
      assert host == name + (":" + port);
      assert host[..|name|] == name && host[|name|] == ':';
      IndexUnique(host, ':', |name|);
    }
  }

  /**
   Host round trip: a host built from a non-empty ID reads back as that ID exactly when the ID is not `www` and
   neither it nor the base domain has a colon, whatever the port.
   */
  lemma HostRoundTrip(id: string, baseDomain: string, port: string)
    requires id != ""
    ensures GatewaySubdomain(Host(id, baseDomain, port), baseDomain) == id
       <==> id != "www" && ':' !in id && ':' !in baseDomain
  {
    var host := Host(id, baseDomain, port);
    var h := WithoutPort(host);
    var suffix := "." + baseDomain;
    if ':' in id {
      ColonCuts(id, suffix + (if port == "" then "" else ":" + port));
      assert host == id + (suffix + (if port == "" then "" else ":" + port));
    } else if ':' in baseDomain {
      assert host[|id| + 1..|id| + 1 + |baseDomain|] == baseDomain;
      var k :| 0 <= k < |baseDomain| && baseDomain[k] == ':';
      assert host[|id| + 1 + k] == ':';
      assert ':' !in h;
      assert suffix[1 + k] == ':';
      if HasSuffix(h, suffix) {
        SuffixCarries(h, suffix, ':');
      }
    } else {
      WithoutPortOfHost(id, baseDomain, port);
      assert h == id + suffix;
      assert h[..|h| - |suffix|] == id;
    }
  }

  lemma SuffixCarries(s: string, suffix: string, c: char)
    requires HasSuffix(s, suffix) && c in suffix
    ensures c in s
  {
    var k :| 0 <= k < |suffix| && suffix[k] == c;
    assert s[|s| - |suffix|..][k] == s[|s| - |suffix| + k];
  }

  /** A colon in `id` cuts the host inside it. */
  lemma ColonCuts(id: string, rest: string)
    requires ':' in id
    ensures |WithoutPort(id + rest)| < |id|
  {
    var i := Index(id, ':');
    if i == -1 {
      assert false;
    }
    assert (id + rest)[..i] == id[..i];
    IndexUnique(id + rest, ':', i);
  }
}
