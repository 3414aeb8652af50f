/** The two hostname canonicalisers: the one that decides which hostname a service
    owns (internal/daemon) and the one that computes route keys (internal/proxy). */
module Hosts {
  import opened Types

  // ----- String helpers (ASCII) -----

  predicate Space(c: char) { c in " \t\n\r" || c == 11 as char || c == 12 as char }

  function LowerChar(c: char): char {
    if 'A' <= c <= 'Z' then (c as int + 32) as char else c
  }

  function Lower(s: string): string {
    seq(|s|, i requires 0 <= i < |s| => LowerChar(s[i]))
  }

  function TrimLeft(s: string): string {
    if s != [] && Space(s[0]) then TrimLeft(s[1..]) else s
  }

  function TrimRight(s: string): string {
    if s != [] && Space(s[|s| - 1]) then TrimRight(s[..|s| - 1]) else s
  }

  function TrimSpace(s: string): string { TrimRight(TrimLeft(s)) }

  function TrimPrefix(s: string, c: char): string {
    if s != [] && s[0] == c then s[1..] else s
  }

  function TrimSuffix(s: string, c: char): string {
    if s != [] && s[|s| - 1] == c then s[..|s| - 1] else s
  }

  /** Index of the last `c` in `s`, or -1. */
  function LastIndex(s: string, c: char): (i: int)
    ensures -1 <= i < |s|
    ensures i >= 0 ==> s[i] == c
    ensures forall j :: i < j < |s| ==> s[j] != c
  {
    if s == [] then -1
    else if s[|s| - 1] == c then |s| - 1
    else LastIndex(s[..|s| - 1], c)
  }

  /** Index of the first `c` in `s`, or -1. */
  function FirstIndex(s: string, c: char): (i: int)
    ensures -1 <= i < |s|
    ensures i >= 0 ==> s[i] == c && c !in s[..i]
    ensures i < 0 ==> c !in s
  {
    if s == [] then -1
    else if s[0] == c then 0
    else var r := FirstIndex(s[1..], c); if r < 0 then -1 else r + 1
  }

  /** The host part computed by Go's net.SplitHostPort, or None on its errors. */
  function SplitHost(s: string): (r: Option<string>)
    ensures ':' !in s ==> r == None
  {
    var i := LastIndex(s, ':');
    if i < 0 then None
    else if s[0] == '[' then
      var end := FirstIndex(s, ']');
      if end < 1 || end + 1 != i || '[' in s[1..] || ']' in s[end + 1..] then None
      else Some(s[1..end])
    else if ':' in s[..i] || '[' in s || ']' in s then None
    else Some(s[..i])
  }

  // ----- The canonicalisers -----

  /** The hostname a service claims: internal/daemon/daemon.go canonicalHTTPHost. */
  function CanonicalHost(raw: string): (r: Option<string>) {
    var host := TrimSuffix(Lower(TrimSpace(raw)), '.');
    if host == "" || ':' in host || '/' in host || '@' in host then None else Some(host)
  }

  /** The route key of a Host header: internal/proxy/http.go normalizeHost. */
  function NormalizeHost(host: string): string {
    var h := Lower(TrimSpace(host));
    if h == "" then h else
      var split := SplitHost(h);
      var bare := if split.Some? then split.value else h;
      TrimSuffix(TrimSuffix(TrimPrefix(bare, '['), ']'), '.')
  }

  /** What every accepted hostname satisfies. */
  ghost predicate Accepted(h: string) {
    h != "" && Lower(h) == h && ':' !in h
  }

  lemma {:induction false} LowerIdempotent(s: string)
    ensures Lower(Lower(s)) == Lower(s)
  {
    forall i | 0 <= i < |s| ensures LowerChar(LowerChar(s[i])) == LowerChar(s[i]) {}
  }

  /** What the daemon accepts as a hostname: no URL parts, and the request's text but for
      case, surrounding space and one trailing dot. */
  lemma CanonicalIsAccepted(raw: string)
    requires CanonicalHost(raw).Some?
    ensures var h := CanonicalHost(raw).value;
      && Accepted(h) && '/' !in h && '@' !in h
      && (Lower(TrimSpace(raw)) == h || Lower(TrimSpace(raw)) == h + ".")
  {
    var t := Lower(TrimSpace(raw));
    LowerIdempotent(TrimSpace(raw));
    var h := CanonicalHost(raw).value;
    assert h == t || h == t[..|t| - 1];
    forall i | 0 <= i < |h| ensures Lower(h)[i] == h[i] {
      assert Lower(t)[i] == t[i];
    }
  }

  // ----- What the string helpers mean -----

  /** ASCII white space: tab, line feed, vertical tab, form feed, carriage return, space. */
  predicate IsBlank(c: char) { c as int in {9, 10, 11, 12, 13, 32} }

  ghost predicate AllBlank(s: string) { forall i :: 0 <= i < |s| ==> IsBlank(s[i]) }

  /** Nonempty, and neither end is white space. */
  predicate Core(s: string) { s != "" && !IsBlank(s[0]) && !IsBlank(s[|s| - 1]) }

  lemma {:induction false} TrimLeftIs(a: string, s: string)
    requires AllBlank(a) && (s == "" || !IsBlank(s[0]))
    ensures TrimLeft(a + s) == s
    decreases |a|
  {
    if a == "" {
      assert a + s == s;
    } else {
      assert (a + s)[1..] == a[1..] + s;
      TrimLeftIs(a[1..], s);
    }
  }

  lemma {:induction false} TrimRightIs(s: string, b: string)
    requires AllBlank(b) && (s == "" || !IsBlank(s[|s| - 1]))
    ensures TrimRight(s + b) == s
    decreases |b|
  {
    if b == "" {
      assert s + b == s;
    } else {
      assert (s + b)[..|s + b| - 1] == s + b[..|b| - 1];
      TrimRightIs(s, b[..|b| - 1]);
    }
  }

  /** Trimming takes away the white space around a text and nothing else. */
  lemma TrimSpaceIs(a: string, s: string, b: string)
    requires AllBlank(a) && AllBlank(b) && (s == "" || Core(s))
    ensures TrimSpace(a + s + b) == s
  {
    if s == "" {
      assert a + s + b == (a + b) + "";
      TrimLeftIs(a + b, "");
    } else {
      assert a + s + b == a + (s + b);
      TrimLeftIs(a, s + b);
      TrimRightIs(s, b);
    }
  }

  lemma CoreIsTrimmed(s: string)
    requires Core(s)
    ensures TrimSpace(s) == s
  {}

  lemma {:induction false} LeadingBlanks(s: string) returns (a: string, t: string)
    ensures s == a + t && AllBlank(a) && (t == "" || !IsBlank(t[0]))
  {
    if s != "" && IsBlank(s[0]) {
      var rest;
      rest, t := LeadingBlanks(s[1..]);
      a := [s[0]] + rest;
    } else {
      a, t := "", s;
    }
  }

  lemma {:induction false} TrailingBlanks(s: string) returns (t: string, b: string)
    ensures s == t + b && AllBlank(b) && (t == "" || !IsBlank(t[|t| - 1]))
  {
    if s != "" && IsBlank(s[|s| - 1]) {
      var rest;
      t, rest := TrailingBlanks(s[..|s| - 1]);
      b := rest + [s[|s| - 1]];
    } else {
      t, b := s, "";
    }
  }

  /** Every text is of that form. */
  lemma Surroundings(raw: string) returns (a: string, s: string, b: string)
    ensures raw == a + s + b && AllBlank(a) && AllBlank(b) && (s == "" || Core(s)) && TrimSpace(raw) == s
  {
    var t;
    a, t := LeadingBlanks(raw);
    s, b := TrailingBlanks(t);
    assert s != "" ==> s[0] == t[0];
    TrimSpaceIs(a, s, b);
  }

  /** A text is blank after trimming if and only if all of it is white space. */
  lemma BlankIff(raw: string)
    ensures TrimSpace(raw) == "" <==> AllBlank(raw)
  {
    var a, s, b := Surroundings(raw);
    if s != "" {
      assert raw[|a|] == s[0];
    }
  }

  /** Exactly the letters A to Z become their lower-case counterparts, place by place. */
  lemma LowerIs(s: string, i: nat)
    requires i < |s|
    ensures |Lower(s)| == |s|
    ensures Lower(s)[i] as int == if 65 <= s[i] as int <= 90 then s[i] as int + 32 else s[i] as int
  {}

  predicate UrlPart(c: char) { c == ':' || c == '/' || c == '@' }

  lemma LowerKeepsParts(s: string, c: char)
    requires UrlPart(c)
    ensures c in Lower(s) <==> c in s
  {
    if c in s {
      var i :| 0 <= i < |s| && s[i] == c;
      assert Lower(s)[i] == c;
    }
    if c in Lower(s) {
      var i :| 0 <= i < |s| && Lower(s)[i] == c;
      LowerIs(s, i);
      assert s[i] == c;
    }
  }

  /** What canonicalHTTPHost makes of every text: blank texts, a lone dot and texts with a
      colon, slash or at-sign are refused; of all others the white space around them and
      one trailing dot go, letters become lower-case, and nothing else changes. */
  lemma CanonicalExact(a: string, h: string, b: string)
    requires AllBlank(a) && AllBlank(b) && (h == "" || Core(h))
    ensures CanonicalHost(a + h + b) ==
      if h == "" || h == "." || ':' in h || '/' in h || '@' in h then None
      else Some(if h[|h| - 1] == '.' then Lower(h)[..|h| - 1] else Lower(h))
  {
    TrimSpaceIs(a, h, b);
    LowerKeepsParts(h, ':');
    LowerKeepsParts(h, '/');
    LowerKeepsParts(h, '@');
    if h != "" {
      LowerIs(h, |h| - 1);
      var t := Lower(h);
      assert (t[|t| - 1] == '.') <==> (h[|h| - 1] == '.');
      assert t[|t| - 1] == '.' ==> t == t[..|t| - 1] + ".";
    }
  }

  // ----- When the two agree -----

  /** A hostname that route-key normalisation leaves alone, as a test on its ends. */
  predicate Plain(h: string) {
    h != "" && !Space(h[0]) && h[0] != '[' &&
    var last := h[|h| - 1];
    !Space(last) && last != ']' && last != '.'
  }

  lemma {:induction false} TrimLeftShrinks(s: string)
    ensures |TrimLeft(s)| <= |s|
    ensures |TrimLeft(s)| == |s| ==> TrimLeft(s) == s && (s == [] || !Space(s[0]))
    ensures ':' in TrimLeft(s) ==> ':' in s
    ensures Lower(s) == s ==> Lower(TrimLeft(s)) == TrimLeft(s)
    decreases |s|
  {
    if s != [] && Space(s[0]) {
      TrimLeftShrinks(s[1..]);
      if Lower(s) == s {
        assert forall i :: 0 <= i < |s| - 1 ==> Lower(s)[i + 1] == s[1..][i];
        assert Lower(s[1..]) == s[1..];
      }
    }
  }

  lemma {:induction false} TrimRightShrinks(s: string)
    ensures |TrimRight(s)| <= |s|
    ensures |TrimRight(s)| == |s| ==> TrimRight(s) == s && (s == [] || !Space(s[|s| - 1]))
    ensures ':' in TrimRight(s) ==> ':' in s
    ensures Lower(s) == s ==> Lower(TrimRight(s)) == TrimRight(s)
    decreases |s|
  {
    if s != [] && Space(s[|s| - 1]) {
      var t := s[..|s| - 1];
      TrimRightShrinks(t);
      if Lower(s) == s {
        assert forall i :: 0 <= i < |t| ==> Lower(s)[i] == t[i];
        assert Lower(t) == t;
      }
    }
  }

  /** Without a port, a lower-case host loses only its ends. */
  lemma NormalizedPlainly(h: string)
    requires Lower(TrimSpace(h)) == TrimSpace(h) && ':' !in TrimSpace(h)
    ensures NormalizeHost(h) == TrimSuffix(TrimSuffix(TrimPrefix(TrimSpace(h), '['), ']'), '.')
  {}

  lemma TrimSpaceShrinks(h: string)
    requires Accepted(h)
    ensures |TrimSpace(h)| <= |h| && Lower(TrimSpace(h)) == TrimSpace(h) && ':' !in TrimSpace(h)
    ensures |TrimSpace(h)| == |h| ==> TrimSpace(h) == h && !Space(h[0]) && !Space(h[|h| - 1])
  {
    TrimLeftShrinks(h);
    TrimRightShrinks(TrimLeft(h));
  }

  /** On an accepted hostname normalisation only ever removes characters. */
  lemma NormalizeShrinks(h: string)
    requires Accepted(h)
    ensures |NormalizeHost(h)| <= |h|
    ensures |NormalizeHost(h)| == |h| ==> NormalizeHost(h) == h && Plain(h)
  {
    TrimSpaceShrinks(h);
    NormalizedPlainly(h);
  }

  /** The exact condition under which the two canonicalisers agree on a hostname. */
  lemma FixedPointIff(h: string)
    requires Accepted(h)
    ensures NormalizeHost(h) == h <==> Plain(h)
  {
    NormalizeShrinks(h);
  }

  /** Every accepted hostname is the key of some request, whether or not it is the
      key under which its own route is stored. */
  lemma KeyIsReachable(h: string)
    requires Accepted(h)
    ensures NormalizeHost("[" + h + ".") == h
  {
    var x := "[" + h + ".";
    assert Lower(x) == x by {
      forall i | 0 <= i < |x| ensures Lower(x)[i] == x[i] {
        if 1 <= i < |x| - 1 { assert Lower(h)[i - 1] == h[i - 1]; }
      }
    }
    assert ':' !in x;
    assert TrimSpace(x) == x;
    NormalizedPlainly(x);
    assert x[1..] == h + ".";
  }

  predicate Digits(s: string) { forall i :: 0 <= i < |s| ==> '0' <= s[i] <= '9' }

  lemma WithPortUntouched(h: string, port: string)
    requires Accepted(h) && Plain(h) && Digits(port)
    ensures var s := h + ":" + port;
      && TrimSpace(s) == s && Lower(s) == s && LastIndex(s, ':') == |h| && s[..|h|] == h
      && ('[' in s <==> '[' in h) && (']' in s <==> ']' in h)
  {
    var s := h + ":" + port;
    forall i | 0 <= i < |s| ensures Lower(s)[i] == s[i] {
      if i < |h| { assert Lower(h)[i] == h[i]; }
    }
    assert s[|h|] == ':' && forall j :: |h| < j < |s| ==> s[j] == port[j - |h| - 1];
    assert s[0] == h[0] && !Space(s[|s| - 1]);
    assert forall x :: x in s <==> x in h || x == ':' || x in port;
  }

  /** The Host header of a request to a URL with a port leads to the same key as the
      hostname alone, if and only if the hostname contains no bracket. */
  lemma HostWithPortIff(h: string, port: string)
    requires Accepted(h) && Plain(h) && Digits(port)
    ensures NormalizeHost(h + ":" + port) == h <==> '[' !in h && ']' !in h
  {
    var s := h + ":" + port;
    WithPortUntouched(h, port);
    assert s[0] == h[0] && s[0] != '[';
    if '[' in h || ']' in h {
      assert SplitHost(s) == None;
      assert NormalizeHost(s) == s;
    } else {
      assert ':' !in s[..|h|];
      assert SplitHost(s) == Some(h);
    }
  }

  lemma BracketedSplit(h: string, port: string)
    requires '[' !in h && ']' !in h && Digits(port)
    ensures SplitHost("[" + h + "]:" + port) == Some(h)
  {
    var s := "[" + h + "]:" + port;
    assert s[|h| + 1] == ']' && s[|h| + 2] == ':';
    assert forall j :: |h| + 2 < j < |s| ==> s[j] == port[j - |h| - 3];
    assert s[1..|h| + 1] == h;
    assert LastIndex(s, ':') == |h| + 2;
    assert forall j :: 0 <= j < |h| ==> s[j + 1] == h[j];
    assert forall j :: 0 <= j <= |h| ==> s[j] != ']';
    assert FirstIndex(s, ']') == |h| + 1;
    forall i | 1 <= i < |s| ensures s[i] != '[' {
      assert i <= |h| ==> s[i] == h[i - 1];
    }
    forall i | |h| + 2 <= i < |s| ensures s[i] != ']' {}
  }

  /** What is left of a host that is trimmed and lower-case already. */
  lemma NormalizedFrom(s: string, bare: string)
    requires s != "" && TrimSpace(s) == s && Lower(s) == s
    requires bare == if SplitHost(s).Some? then SplitHost(s).value else s
    ensures NormalizeHost(s) == TrimSuffix(TrimSuffix(TrimPrefix(bare, '['), ']'), '.')
  {}

  lemma BracketedIsTidy(h: string, port: string)
    requires Lower(h) == h && Digits(port)
    ensures var s := "[" + h + "]:" + port; TrimSpace(s) == s && Lower(s) == s
  {
    var s := "[" + h + "]:" + port;
    forall i | 0 <= i < |s| ensures Lower(s)[i] == s[i] {
      if 1 <= i <= |h| {
        assert Lower(h)[i - 1] == h[i - 1];
      }
    }
    assert !IsBlank(s[0]) && !IsBlank(s[|s| - 1]);
    CoreIsTrimmed(s);
  }

  /** A bracketed address with a port has the address between the brackets as its key. */
  lemma BracketedKey(h: string, port: string)
    requires h != "" && Lower(h) == h && '[' !in h && ']' !in h && h[|h| - 1] != '.' && Digits(port)
    ensures NormalizeHost("[" + h + "]:" + port) == h
  {
    hide NormalizeHost, SplitHost, TrimSpace, Lower, Digits;
    BracketedIsTidy(h, port);
    BracketedSplit(h, port);
    NormalizedFrom("[" + h + "]:" + port, h);
    assert h[0] in h && h[|h| - 1] in h;
  }

  lemma ManyColonsSplit(h: string, i: nat, j: nat)
    requires i < j < |h| && h[i] == h[j] == ':' && h[0] != '['
    ensures SplitHost(h) == None
  {
    var last := LastIndex(h, ':');
    assert h[..last][i] == ':';
  }

  /** A bare address with several colons is not taken for a host with a port. */
  lemma ManyColonsKey(h: string, i: nat, j: nat)
    requires Core(h) && Lower(h) == h && i < j < |h| && h[i] == h[j] == ':'
    requires h[0] != '[' && h[|h| - 1] != ']' && h[|h| - 1] != '.'
    ensures NormalizeHost(h) == h
  {
    hide NormalizeHost, SplitHost, TrimSpace, Lower;
    CoreIsTrimmed(h);
    ManyColonsSplit(h, i, j);
    NormalizedFrom(h, h);
  }

  /** A hostname with a bracket in it is accepted, and with a port it is not found. */
  lemma BracketAccepted()
    ensures CanonicalHost("a[b") == Some("a[b") && Plain("a[b")
    ensures NormalizeHost("a[b:80") != "a[b"
  {
    assert !Space('a') && !Space('b');
    assert Lower("a[b") == "a[b" && TrimSpace("a[b") == "a[b";
    assert "a[b"[1] == '[';
    assert "a[b" + ":" + "80" == "a[b:80";
    HostWithPortIff("a[b", "80");
  }

  /** Two requests for distinct hostnames, both accepted, one route key. */
  lemma DistinctHostsOneKey()
    ensures CanonicalHost("a") == Some("a") && CanonicalHost("a..") == Some("a.")
    ensures NormalizeHost("a") == NormalizeHost("a.") == "a"
  {
    assert Lower("a") == "a" && Lower("a.") == "a." && Lower("a..") == "a..";
    assert TrimSuffix("a..", '.') == "a." && TrimSuffix("a.", '.') == "a";
    assert !Space('a') && !Space('.');
  }
}
