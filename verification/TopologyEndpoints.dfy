/** Which endpoints share a node of the topology graph: the node id drops the scheme of an endpoint
    and writes a dash for each slash and colon
    (internal/examples/opamp-api-and-mcp-server/internal/config/config.go). */
module TopologyEndpoints {
  import opened Topology

  predicate NoMatch(s: string, what: string) {
    forall i :: 0 <= i < |s| ==> !(what <= s[i..])
  }

  lemma {:induction false} ReplaceNothing(s: string, what: string, with: string)
    requires what != "" && NoMatch(s, what)
    ensures ReplaceAll(s, what, with) == s
  {
    if s != "" {
      assert s[0..] == s;
      forall i | 0 <= i < |s[1..]| ensures !(what <= s[1..][i..]) {
        assert s[1..][i..] == s[i + 1..];
      }
      ReplaceNothing(s[1..], what, with);
    }
  }

  /** One character is replaced wherever it stands. */
  lemma {:induction false} ReplaceCharacter(s: string, c: char, d: char)
    ensures |ReplaceAll(s, [c], [d])| == |s|
    ensures forall i :: 0 <= i < |s| ==> ReplaceAll(s, [c], [d])[i] == if s[i] == c then d else s[i]
  {
    if s != "" {
      ReplaceCharacter(s[1..], c, d);
      assert [c] <= s <==> s[0] == c;
    }
  }

  lemma MatchEnds(s: string, i: nat, prefix: string, what: string)
    requires i < |s| && what != "" && prefix + what <= s[i..]
    ensures i + |prefix| < |s| && what <= s[i + |prefix|..]
  {
    assert s[i..][|prefix|..] == s[i + |prefix|..];
    assert what == (prefix + what)[|prefix|..];
  }

  /** A text without the end of a scheme has no scheme in it. */
  lemma NoSchemeWithin(s: string, prefix: string)
    requires NoMatch(s, "://")
    ensures NoMatch(s, prefix + "://")
  {
    forall i | 0 <= i < |s| && prefix + "://" <= s[i..] ensures false {
      MatchEnds(s, i, prefix, "://");
      assert false;
    }
  }

  lemma NoHttpInHttps(s: string)
    requires NoMatch(s, "://")
    ensures NoMatch("https://" + s, "http://")
  {
    var t := "https://" + s;
    NoSchemeWithin(s, "http");
    forall i | 0 <= i < |t| ensures !("http://" <= t[i..]) {
      if i >= 8 {
        assert t[i..] == s[i - 8..];
      } else if i > 0 {
        assert t[i] == "https://"[i];
      } else {
        assert t[4] == 's';
      }
    }
  }

  lemma SchemeMatches(scheme: string, s: string)
    requires scheme != "" && NoMatch(s, scheme)
    ensures ReplaceAll(scheme + s, scheme, "") == s
  {
    ReplaceNothing(s, scheme, "");
    assert (scheme + s)[|scheme|..] == s;
    assert "" + s == s;
  }

  /** Once the scheme is gone, nothing more is dropped. */
  lemma SchemeDropped(scheme: string, s: string)
    requires scheme in {"", "http://", "https://"} && NoMatch(s, "://")
    ensures ReplaceAll(ReplaceAll(ReplaceAll(scheme + s, "http://", ""), "https://", ""), "://", "") == s
  {
    HttpDropped(scheme, s);
    HttpsDropped(scheme, s);
    ReplaceNothing(s, "://", "");
  }

  lemma HttpDropped(scheme: string, s: string)
    requires scheme in {"", "http://", "https://"} && NoMatch(s, "://")
    ensures ReplaceAll(scheme + s, "http://", "") == if scheme == "https://" then scheme + s else s
  {
    NoSchemeWithin(s, "http");
    assert "http" + "://" == "http://" && "" + s == s;
    if scheme == "" {
      ReplaceNothing(s, "http://", "");
    } else if scheme == "http://" {
      SchemeMatches("http://", s);
    } else {
      NoHttpInHttps(s);
      ReplaceNothing("https://" + s, "http://", "");
    }
  }

  lemma HttpsDropped(scheme: string, s: string)
    requires scheme in {"", "http://", "https://"} && NoMatch(s, "://")
    ensures ReplaceAll(if scheme == "https://" then scheme + s else s, "https://", "") == s
  {
    NoSchemeWithin(s, "https");
    assert "https" + "://" == "https://";
    if scheme == "https://" {
      SchemeMatches("https://", s);
    } else {
      ReplaceNothing(s, "https://", "");
    }
  }

  /** Main result: whatever comes after the scheme is kept, with a dash for each slash and colon. */
  lemma EndpointIsNormalized(scheme: string, s: string)
    requires scheme in {"", "http://", "https://"} && NoMatch(s, "://")
    ensures |NormalizeEndpoint(scheme + s)| == |s|
    ensures forall i :: 0 <= i < |s| ==>
              NormalizeEndpoint(scheme + s)[i] == if s[i] == '/' || s[i] == ':' then '-' else s[i]
  {
    SchemeDropped(scheme, s);
    ReplaceCharacter(s, '/', '-');
    ReplaceCharacter(ReplaceAll(s, "/", "-"), ':', '-');
  }

  predicate IsPlain(s: string) {
    '/' !in s && ':' !in s
  }

  lemma SchemeHasSlash(s: string, i: nat)
    requires i < |s| && "://" <= s[i..]
    ensures '/' in s
  {
    assert s[i..][1] == s[i + 1] == '/';
  }

  lemma HostAndPort(scheme: string, host: string, port: string)
    requires scheme in {"", "http://", "https://"} && IsPlain(host) && IsPlain(port)
    ensures EndpointNodeId(scheme + (host + ":" + port)) == "endpoint-" + (host + "-" + port)
  {
    var s := host + ":" + port;
    forall i | 0 <= i < |s| && "://" <= s[i..] ensures false {
      SchemeHasSlash(s, i);
      assert false;
    }
    EndpointIsNormalized(scheme, s);
    assert forall i :: 0 <= i < |host| ==> host[i] in host;
    assert forall i :: 0 <= i < |port| ==> port[i] in port;
    assert NormalizeEndpoint(scheme + s) == host + "-" + port;
  }

  lemma LongerHasDash(h: string, p: string, k: string, q: string)
    requires h + "-" + p == k + "-" + q && |p| < |q|
    ensures '-' in q
  {
    var s := k + "-" + q;
    assert (h + "-" + p)[|h|] == '-';
    assert s[|k| + 1..] == q && s[|h|] == s[|k| + 1..][|h| - |k| - 1];
  }

  lemma LastDash(h: string, p: string, k: string, q: string)
    requires '-' !in p && '-' !in q && h + "-" + p == k + "-" + q
    ensures h == k && p == q
  {
    if |p| < |q| { LongerHasDash(h, p, k, q); }
    if |q| < |p| { LongerHasDash(k, q, h, p); }
    var s, t := h + "-" + p, k + "-" + q;
    assert s[..|h|] == h && t[..|k|] == k;
    assert s[|h| + 1..] == p && t[|k| + 1..] == q;
  }

  /** Main result: two endpoints with a host and a port share their node exactly if host and port are
      the same, over http, https or without a scheme. */
  lemma EndpointsAreKeptApart(s: string, host: string, port: string, t: string, otherHost: string, otherPort: string)
    requires s in {"", "http://", "https://"} && t in {"", "http://", "https://"}
    requires IsPlain(host) && IsPlain(otherHost) && IsPlain(port) && IsPlain(otherPort)
    requires '-' !in port && '-' !in otherPort
    ensures EndpointNodeId(s + (host + ":" + port)) == EndpointNodeId(t + (otherHost + ":" + otherPort)) <==>
              host == otherHost && port == otherPort
  {
    HostAndPort(s, host, port);
    HostAndPort(t, otherHost, otherPort);
    var x, y := host + "-" + port, otherHost + "-" + otherPort;
    if "endpoint-" + x == "endpoint-" + y {
      assert x == ("endpoint-" + x)[9..] && y == ("endpoint-" + y)[9..];
      LastDash(host, port, otherHost, otherPort);
    }
  }
}
