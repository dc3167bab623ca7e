/** The endpoint rewriting of `getKVDBClient`: each discovery endpoint loses its own scheme in place
    and becomes a plain URL. */
module Endpoints {
  import opened Options
  import opened Colons

  // ---------------------------------------------------------------- one endpoint

  /** Each piece that is not empty, with a colon before it. */
  function Suffix(ts: seq<string>): string {
    if ts == [] then "" else (if ts[0] == "" then "" else ":" + ts[0]) + Suffix(ts[1..])
  }

  function Scheme(token: string): string { if token == "https" then "https" else "http" }

  /** A scheme in second place is blanked, as it moves to the front. */
  function Blanked(token: string): string { if token == "http" || token == "https" then "" else token }

  /** A URL has a second piece exactly when it has a colon. */
  predicate Readable(url: string) { |Split(url)| > 1 }

  function Rewritten(url: string): string
    requires Readable(url)
  {
    var ts := Split(url);
    Scheme(ts[1]) + Suffix([Blanked(ts[1])] + ts[2..])
  }

  // ---------------------------------------------------------------- what rewriting means

  /** Every run of colons as one, with no colon at the end. The first letter gets a colon before it
      when one is `pending`. */
  function Collapse(s: string, pending: bool): string {
    if s == "" then ""
    else if s[0] == ':' then Collapse(s[1..], true)
    else (if pending then ":" else "") + [s[0]] + Collapse(s[1..], false)
  }

  lemma {:induction false} SuffixCollapses(s: string)
    ensures Suffix(Split(s)) == Collapse(s, true)
    ensures Split(s)[0] + Suffix(Split(s)[1..]) == Collapse(s, false)
  {
    if s != "" {
      var ts := Split(s[1..]);
      SuffixCollapses(s[1..]);
      if s[0] == ':' {
        assert ([""] + ts)[1..] == ts;
      } else {
        assert ([[s[0]] + ts[0]] + ts[1..])[1..] == ts[1..];
        assert [s[0]] + ts[0] + Suffix(ts[1..]) == [s[0]] + Collapse(s[1..], false);
        assert ":" + ([s[0]] + ts[0]) + Suffix(ts[1..]) == ":" + [s[0]] + Collapse(s[1..], false);
      }
    }
  }

  /** Dropping an empty piece makes the string shorter, so it is never unnoticed. */
  lemma {:induction false} SuffixKeepsAll(ts: seq<string>)
    requires |ts| > 0
    ensures |Suffix(ts)| <= 1 + |Join(ts)|
    ensures Suffix(ts) == ":" + Join(ts) <==> "" !in ts
    ensures "" in ts ==> |Suffix(ts)| < 1 + |Join(ts)|
  {
    assert ts == [ts[0]] + ts[1..];
    if |ts| > 1 {
      SuffixKeepsAll(ts[1..]);
      if "" !in ts {
        assert ":" + ts[0] + (":" + Join(ts[1..])) == ":" + (ts[0] + ":" + Join(ts[1..]));
      }
    }
  }

  lemma KeptExactly(scheme: string, x: string)
    ensures scheme + Collapse(x, true) == scheme + ":" + x <==> "" !in Split(x)
  {
    SuffixCollapses(x);
    SuffixKeepsAll(Split(x));
    JoinSplit(x);
    if Collapse(x, true) == ":" + x {
      assert scheme + (":" + x) == scheme + ":" + x;
    }
    assert |scheme + Collapse(x, true)| == |scheme| + |Collapse(x, true)|;
  }

  /** An endpoint that names a transport keeps it, and the rest with its colons collapsed. */
  lemma TransportIsKept(own: string, scheme: string, x: string)
    requires ':' !in own && scheme in {"http", "https"}
    ensures Readable(own + ":" + (scheme + ":" + x))
    ensures Rewritten(own + ":" + (scheme + ":" + x)) == scheme + Collapse(x, true)
  {
    TwoPiecesInFront(own, scheme, x);
    var ts := Split(own + ":" + (scheme + ":" + x));
    assert ts[1] == scheme && ts[2..] == Split(x);
    assert Suffix([""] + Split(x)) == Suffix(Split(x)) by {
      assert ([""] + Split(x))[1..] == Split(x);
    }
    SuffixCollapses(x);
  }

  /** So does one that names nothing else. */
  lemma BareTransportIsKept(own: string, scheme: string)
    requires ':' !in own && scheme in {"http", "https"}
    ensures Readable(own + ":" + scheme) && Rewritten(own + ":" + scheme) == scheme
  {
    SplitPlain(own);
    SplitPlain(scheme);
    SplitAtColon(own, scheme);
    var ts := Split(own + ":" + scheme);
    assert ts == [own, scheme] && [Blanked(ts[1])] + ts[2..] == [""];
    assert Suffix([""]) == "" by {
      assert [""][1..] == [];
    }
  }

  lemma TwoPiecesInFront(a: string, b: string, x: string)
    requires ':' !in a && ':' !in b
    ensures Split(a + ":" + (b + ":" + x)) == [a, b] + Split(x)
  {
    SplitPlain(a);
    SplitPlain(b);
    SplitAtColon(b, x);
    SplitAtColon(a, b + ":" + x);
  }

  /** An endpoint that names none gets `http`. */
  lemma PlainHttpIsAssumed(own: string, x: string)
    requires ':' !in own && Split(x)[0] !in {"http", "https"}
    ensures Readable(own + ":" + x)
    ensures Rewritten(own + ":" + x) == "http" + Collapse(x, true)
  {
    SplitPlain(own);
    SplitAtColon(own, x);
    var ts := Split(own + ":" + x);
    assert ts == [own] + Split(x);
    assert [ts[1]] + ts[2..] == Split(x);
    SuffixCollapses(x);
  }

  /** The three forms of a discovery endpoint, for every remainder: `etcd:http://R` becomes
      `http://R`, `etcd:https://R` becomes `https://R` and `etcd://R` becomes `http://R`, exactly when
      no piece of the remainder is empty. */
  lemma DiscoveryEndpoints(r: string)
    ensures Readable("etcd:http://" + r) && Readable("etcd:https://" + r) && Readable("etcd://" + r)
    ensures Rewritten("etcd:http://" + r) == "http://" + r <==> "" !in Split("//" + r)
    ensures Rewritten("etcd:https://" + r) == "https://" + r <==> "" !in Split("//" + r)
    ensures Rewritten("etcd://" + r) == "http://" + r <==> "" !in Split("//" + r)
  {
    var x := "//" + r;
    assert "etcd" + ":" + ("http" + ":" + x) == "etcd:http://" + r;
    assert "etcd" + ":" + ("https" + ":" + x) == "etcd:https://" + r;
    assert "etcd" + ":" + x == "etcd://" + r;
    assert "http" + ":" + x == "http://" + r && "https" + ":" + x == "https://" + r;
    TransportIsKept("etcd", "http", x);
    TransportIsKept("etcd", "https", x);
    StartsWithASlash(x);
    PlainHttpIsAssumed("etcd", x);
    KeptExactly("http", x);
    KeptExactly("https", x);
  }

  lemma StartsWithASlash(x: string)
    requires x != "" && x[0] == '/'
    ensures Split(x)[0] !in {"http", "https"}
  {
    assert Split(x)[0][0] == '/';
  }

  /** The empty pieces of a remainder are its colon pairs and a colon at the end: without either, all
      is kept. */
  lemma {:induction false} EmptyPieces(x: string)
    requires x != "" && x[0] != ':'
    ensures "" in Split(x) <==> x[|x| - 1] == ':' || exists j :: 0 < j < |x| && x[j - 1] == x[j] == ':'
  {
    EmptyPiecesFrom(x);
    assert "" != Split(x)[0];
    assert Split(x) == [Split(x)[0]] + Split(x)[1..];
  }

  lemma {:induction false} EmptyPiecesFrom(x: string)
    requires x != ""
    ensures "" in Split(x)[1..] <==> x[|x| - 1] == ':' || exists j :: 0 < j < |x| && x[j - 1] == x[j] == ':'
  {
    var y := x[1..];
    var ts := Split(y);
    if x[0] == ':' {
      assert Split(x)[1..] == ts;
      assert ts == [ts[0]] + ts[1..];
      if y != "" {
        assert ts[0] == "" <==> y[0] == ':';
        EmptyPiecesFrom(y);
        Shifted(x);
      }
    } else {
      assert Split(x)[1..] == ts[1..];
      if y != "" {
        EmptyPiecesFrom(y);
        Shifted(x);
      }
    }
  }

  lemma Shifted(x: string)
    requires |x| > 1
    ensures (exists j :: 0 < j < |x| && x[j - 1] == x[j] == ':')
       <==> x[0] == x[1] == ':' || exists j :: 0 < j < |x| - 1 && x[1..][j - 1] == x[1..][j] == ':'
  {
    if j :| 0 < j < |x| && x[j - 1] == x[j] == ':' {
      if j > 1 {
        assert x[1..][j - 1 - 1] == x[1..][j - 1] == ':';
      }
    }
    if j :| 0 < j < |x| - 1 && x[1..][j - 1] == x[1..][j] == ':' {
      assert x[j + 1 - 1] == x[j + 1] == ':';
    }
  }

  // ---------------------------------------------------------------- the loop

  /** The inner loop: the scheme, then every piece after the first that is not empty. */
  method Rebuild(prefix: string, ts: seq<string>) returns (url: string)
    requires |ts| > 0
    ensures url == prefix + Suffix(ts[1..])
  {
    url := "";
    for j := 0 to |ts|
      invariant j > 0 ==> url + Suffix(ts[j..]) == prefix + Suffix(ts[1..])
    {
      if j == 0 {
        url := prefix;
      } else {
        assert ts[j..][1..] == ts[j + 1..];
        if ts[j] != "" {
          assert url + (":" + ts[j] + Suffix(ts[j + 1..])) == url + ":" + ts[j] + Suffix(ts[j + 1..]);
          url := url + ":" + ts[j];
        }
      }
    }
  }

  /** The loop over endpoints. Only the first one's own scheme is looked at; an endpoint without a
      colon stops the process, with those before it already rewritten. */
  method RewriteEndpoints(endpoints: array<string>) returns (r: Outcome, ghost n: nat)
    modifies endpoints
    ensures n <= endpoints.Length
    ensures forall i :: 0 <= i < n ==> Readable(old(endpoints[i])) && endpoints[i] == Rewritten(old(endpoints[i]))
    ensures forall i :: n <= i < endpoints.Length ==> endpoints[i] == old(endpoints[i])
    ensures r.Failed? <==> endpoints.Length > 0 && Split(old(endpoints[0]))[0] != "etcd"
    ensures r.Ok? ==> n == endpoints.Length
    ensures r.Failed? ==> n == 0
    ensures r.Panicked? ==> n < endpoints.Length && !Readable(old(endpoints[n]))
    ensures r.Panicked? <==> endpoints.Length > 0 && Split(old(endpoints[0]))[0] == "etcd" &&
                             exists i :: 0 <= i < endpoints.Length && !Readable(old(endpoints[i]))
    ensures !r.Died?
  {
    n := 0;
    for i := 0 to endpoints.Length
      invariant n == i
      invariant forall k :: 0 <= k < i ==> Readable(old(endpoints[k])) && endpoints[k] == Rewritten(old(endpoints[k]))
      invariant forall k :: i <= k < endpoints.Length ==> endpoints[k] == old(endpoints[k])
      invariant i > 0 ==> Split(old(endpoints[0]))[0] == "etcd"
    {
      var ts := Split(endpoints[i]);
      if i == 0 && ts[0] != "etcd" {
        return Failed, n;
      }
      if |ts| < 2 {
        return Panicked, n;
      }
      var prefix := "http";
      var blanked := ts;
      if ts[1] == "http" {
        blanked := ts[1 := ""];
      } else if ts[1] == "https" {
        prefix := "https";
        blanked := ts[1 := ""];
      }
      assert blanked[1..] == [Blanked(ts[1])] + ts[2..];
      var url := Rebuild(prefix, blanked);
      endpoints[i] := url;
      n := n + 1;
    }
    r := Ok;
  }

  /** An IPv6 literal with a colon pair, which section 3.2.2 of RFC 3986 allows, does not survive. */
  lemma Ipv6IsNotKept(host: string, port: string)
    ensures Readable("etcd:http://" + ("[::" + host + "]:" + port))
    ensures Rewritten("etcd:http://" + ("[::" + host + "]:" + port)) != "http://" + ("[::" + host + "]:" + port)
  {
    var r := "[::" + host + "]:" + port;
    var x := "//" + r;
    DiscoveryEndpoints(r);
    assert x[3] == x[4] == ':' && x == "//[:" + ":" + x[5..];
    SplitAtColon("//[:", x[5..]);
    SplitAtColon("//[", "");
    assert "" in Split("");
  }
}
