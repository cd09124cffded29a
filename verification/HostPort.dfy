/** Joining and splitting host and port, as Go's `net` package does it: a host with a colon is
    bracketed (the IP-literal form of section 3.2.2 of RFC 3986). */
module HostPort {
  import opened Wrappers

  datatype Pair = Pair(host: string, port: string)

  /** The first position of `c`, or -1. */
  function Index(s: string, c: char): (r: int)
    ensures -1 <= r < |s|
    ensures r == -1 ==> c !in s
    ensures r >= 0 ==> s[r] == c && c !in s[..r]
  {
    if s == "" then -1
    else if s[0] == c then 0
    else
      var r := Index(s[1..], c);
      if r < 0 then -1 else
        assert s[..r + 1] == [s[0]] + s[1..][..r];
        r + 1
  }

  /** The last position of `c`, or -1. */
  function LastIndex(s: string, c: char): (r: int)
    ensures -1 <= r < |s|
    ensures r == -1 ==> c !in s
    ensures r >= 0 ==> s[r] == c && c !in s[r + 1..]
  {
    if s == "" then -1
    else if s[|s| - 1] == c then |s| - 1
    else
      var r := LastIndex(s[..|s| - 1], c);
      assert s == s[..|s| - 1] + [s[|s| - 1]];
      assert r >= 0 ==> s[r + 1..] == s[..|s| - 1][r + 1..] + [s[|s| - 1]];
      r
  }

  function JoinHostPort(host: string, port: string): string {
    if ':' in host then "[" + host + "]:" + port else host + ":" + port
  }

  function SplitHostPort(s: string): Option<Pair> {
    var i := LastIndex(s, ':');
    if i < 0 then None
    else if s[0] == '[' then
      var end := Index(s, ']');
      if end < 0 || end + 1 != i then None
      else if '[' in s[1..] || ']' in s[end + 1..] then None
      else Some(Pair(s[1..end], s[i + 1..]))
    else if ':' in s[..i] || '[' in s || ']' in s then None
    else Some(Pair(s[..i], s[i + 1..]))
  }

  /** No brackets in either part and no colon in the port. */
  predicate Plain(host: string, port: string) {
    && '[' !in host && ']' !in host
    && '[' !in port && ']' !in port && ':' !in port
  }

  lemma LastIndexAt(s: string, c: char, k: nat)
    requires k < |s| && s[k] == c && c !in s[k + 1..]
    ensures LastIndex(s, c) == k
  {
  }

  lemma IndexAt(s: string, c: char, k: nat)
    requires k < |s| && s[k] == c && c !in s[..k]
    ensures Index(s, c) == k
  {
  }

  /** Splitting inverts joining for a plain host and port, a host with colons included. */
  lemma SplitJoined(host: string, port: string)
    requires Plain(host, port)
    ensures SplitHostPort(JoinHostPort(host, port)) == Some(Pair(host, port))
  {
    if ':' in host {
      SplitBracketed(host, port);
    } else {
      SplitUnbracketed(host, port);
    }
  }

  lemma SplitBracketed(host: string, port: string)
    requires Plain(host, port)
    ensures SplitHostPort("[" + host + "]:" + port) == Some(Pair(host, port))
  {
    hide Index, LastIndex;
    var s, n := "[" + host + "]:" + port, |host|;
    assert s == ("[" + host) + ("]:" + port);
    assert s[n + 3..] == port && s[1..n + 1] == host;
    LastIndexAt(s, ':', n + 2);
    assert s[..n + 1] == "[" + host;
    IndexAt(s, ']', n + 1);
    assert s[1..] == host + "]:" + port;
    assert s[n + 2..] == ":" + port;
  }

  lemma SplitUnbracketed(host: string, port: string)
    requires Plain(host, port) && ':' !in host
    ensures SplitHostPort(host + ":" + port) == Some(Pair(host, port))
  {
    hide Index, LastIndex;
    var s := host + ":" + port;
    assert s[|host| + 1..] == port && s[..|host|] == host;
    LastIndexAt(s, ':', |host|);
    assert s[0] != '[' by {
      if host != "" { assert s[0] == host[0] && host[0] in host; }
    }
  }

  /** What is in a part of a stretch is in the stretch. */
  lemma PartOf(s: string, lo: nat, from: nat, to: nat, hi: nat)
    requires lo <= from <= to <= hi <= |s|
    ensures forall c :: c in s[from..to] ==> c in s[lo..hi]
  {
    forall k | 0 <= k < to - from ensures s[from..to][k] in s[lo..hi] {
      assert s[from..to][k] == s[lo..hi][from - lo + k];
    }
  }

  /** What a successful split returns is plain. */
  lemma SplitIsPlain(s: string)
    requires SplitHostPort(s).Some?
    ensures Plain(SplitHostPort(s).value.host, SplitHostPort(s).value.port)
  {
    hide Index, LastIndex;
    var i := LastIndex(s, ':');
    PartOf(s, 0, i + 1, |s|, |s|);
    assert s[0..|s|] == s && s[i + 1..|s|] == s[i + 1..];
    if s[0] == '[' {
      var end := Index(s, ']');
      PartOf(s, 0, 1, end, end);
      PartOf(s, 1, 1, end, |s|);
      PartOf(s, 1, i + 1, |s|, |s|);
      PartOf(s, end + 1, i + 1, |s|, |s|);
      assert s[1..|s|] == s[1..] && s[0..end] == s[..end] && s[end + 1..|s|] == s[end + 1..];
    } else {
      PartOf(s, 0, 0, i, |s|);
      assert s[0..i] == s[..i];
    }
  }

  /** Splitting returns the parts that were joined exactly when they are plain. */
  lemma {:induction false} SplitInvertsJoin(host: string, port: string)
    ensures SplitHostPort(JoinHostPort(host, port)) == Some(Pair(host, port)) <==> Plain(host, port)
  {
    if Plain(host, port) {
      SplitJoined(host, port);
    } else if SplitHostPort(JoinHostPort(host, port)) == Some(Pair(host, port)) {
      SplitIsPlain(JoinHostPort(host, port));
    }
  }
}
