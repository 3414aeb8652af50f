/** Which registration requests are accepted and what the others are told, stated in the
    terms of the API and independently of how the checks are carried out. */
module Acceptance {
  import opened Types
  import opened Registry
  import opened Admission
  import Hosts

  // ----- Service names -----

  /** The parts of a text between its dots. */
  function SplitDots(s: string): seq<string> {
    var i := Hosts.FirstIndex(s, '.');
    if i < 0 then [s] else [s[..i]] + SplitDots(s[i + 1..])
  }

  predicate LetterOrDigit(c: char) { 97 <= c as int <= 122 || 48 <= c as int <= 57 }

  /** A lower-case letter or digit, then letters, digits and hyphens. */
  predicate LabelOk(x: string) {
    x != "" && LetterOrDigit(x[0]) && forall i :: 0 <= i < |x| ==> LetterOrDigit(x[i]) || x[i] == '-'
  }

  /** One or more such labels with dots between them, at most 120 characters in all. */
  ghost predicate NameOk(s: string) { |s| <= 120 && forall x :: x in SplitDots(s) ==> LabelOk(x) }

  /** The grammar of names as a condition on characters. */
  predicate Dotted(s: string) {
    && s != "" && Alnum(s[0])
    && (forall i :: 0 <= i < |s| ==> Alnum(s[i]) || s[i] == '-' || s[i] == '.')
    && (forall i :: 0 <= i < |s| && s[i] == '.' ==> i + 1 < |s| && Alnum(s[i + 1]))
  }

  lemma DottedStep(s: string, i: nat)
    requires i < |s| && s[i] == '.' && '.' !in s[..i]
    ensures Dotted(s) <==> LabelOk(s[..i]) && Dotted(s[i + 1..])
  {
    var l, r := s[..i], s[i + 1..];
    assert forall j :: 0 <= j < i ==> s[j] == l[j] && l[j] in l;
    assert forall j :: 0 <= j < |r| ==> r[j] == s[i + 1 + j];
    if LabelOk(l) && Dotted(r) {
      forall j | 0 <= j < |s| ensures Alnum(s[j]) || s[j] == '-' || s[j] == '.' {
        assert j > i ==> s[j] == r[j - i - 1];
      }
      forall j | 0 <= j < |s| && s[j] == '.' ensures j + 1 < |s| && Alnum(s[j + 1]) {
        assert j > i ==> s[j] == r[j - i - 1];
      }
    }
  }

  lemma {:induction false} DottedIff(s: string)
    ensures Dotted(s) <==> forall x :: x in SplitDots(s) ==> LabelOk(x)
  {
    var i := Hosts.FirstIndex(s, '.');
    if i < 0 {
      assert SplitDots(s) == [s];
      assert forall j :: 0 <= j < |s| ==> s[j] in s;
      assert Dotted(s) <==> LabelOk(s);
      assert s in SplitDots(s);
    } else {
      DottedStep(s, i);
      DottedIff(s[i + 1..]);
      assert SplitDots(s) == [s[..i]] + SplitDots(s[i + 1..]);
      assert s[..i] in SplitDots(s);
    }
  }

  lemma ValidNameIff(s: string)
    ensures ValidName(s) <==> NameOk(s)
  {
    DottedIff(s);
  }

  // ----- Backends, kinds, durations, hostnames -----

  /** A loopback backend with a port between 1 and 65535 and a host that is not blank. */
  ghost predicate BackendOk(q: Request) {
    q.loopback && 1 <= q.backend.port <= 65535
    && exists i :: 0 <= i < |q.backend.host| && !Hosts.IsBlank(q.backend.host[i])
  }

  lemma ValidBackendIff(q: Request)
    ensures ValidBackend(q.backend, q.loopback) <==> BackendOk(q)
  {
    Hosts.BlankIff(q.backend.host);
  }

  /** No kind means TCP. */
  predicate Tcp(q: Request) { q.kind == "" || q.kind == "tcp" }

  predicate Web(q: Request) { q.kind == "http" }

  /** Containers need no lease, no duration means the default, and what the 64-bit product
      of seconds and nanoseconds wraps to lies between three seconds and an hour. */
  predicate DurationOk(q: Request) {
    || q.source == Docker || q.ttlSeconds <= 0
    || 3_000_000_000 <= (q.ttlSeconds * 1_000_000_000) % 18_446_744_073_709_551_616 <= 3_600_000_000_000
  }

  lemma DurationIff(c: Config, q: Request)
    requires ValidConfig(c)
    ensures TTLAccepted(c, q) <==> DurationOk(q)
  {
    if q.source != Docker && q.ttlSeconds > 0 {
      WrapIff(q.ttlSeconds * 1_000_000_000);
    }
  }

  lemma WrapIff(x: int)
    ensures 3_000_000_000 <= Wrap64(x) <= 3_600_000_000_000 <==>
      3_000_000_000 <= x % 18_446_744_073_709_551_616 <= 3_600_000_000_000
  {
    var r := Wrap64(x);
    assert x == (x / TWO64) * TWO64 + x % TWO64;
    assert (x - r) % TWO64 == 0;
    SameClass(x, r, TWO64);
  }

  lemma SameClass(x: int, r: int, m: int)
    requires m > 0 && (x - r) % m == 0 && -m / 2 <= r < m / 2
    ensures x % m == if r >= 0 then r else r + m
  {
    var k := (x - r) / m;
    assert x == k * m + r;
    var y := if r >= 0 then r else r + m;
    var j := if r >= 0 then k else k - 1;
    assert x == j * m + y by {
      assert (k - 1) * m == k * m - m;
    }
    Unique(x, j, y, m);
  }

  lemma Unique(x: int, j: int, y: int, m: int)
    requires m > 0 && x == j * m + y && 0 <= y < m
    ensures x % m == y
  {
    var d := x / m - j;
    assert x == (x / m) * m + x % m;
    assert (x / m) * m - j * m == d * m;
  }

  /** No colon, slash or at-sign, and more than white space and at most one dot. */
  ghost predicate HostOk(raw: string) {
    && ':' !in raw && '/' !in raw && '@' !in raw
    && exists i :: 0 <= i < |raw| && !Hosts.IsBlank(raw[i])
         && (raw[i] != '.' || exists j :: 0 <= j < |raw| && j != i && !Hosts.IsBlank(raw[j]))
  }

  lemma HostIff(raw: string)
    ensures Hosts.CanonicalHost(raw).Some? <==> HostOk(raw)
  {
    var a, h, b := Hosts.Surroundings(raw);
    Hosts.CanonicalExact(a, h, b);
    assert forall i :: 0 <= i < |h| ==> raw[|a| + i] == h[i];
    PartsOutside(a, h, b, ':');
    PartsOutside(a, h, b, '/');
    PartsOutside(a, h, b, '@');
    if h != "" {
      assert !Hosts.IsBlank(raw[|a|]) && !Hosts.IsBlank(raw[|a| + |h| - 1]);
      if |h| == 1 {
        assert forall i :: 0 <= i < |a| ==> raw[i] == a[i];
        assert forall i :: |a| < i < |raw| ==> raw[i] == b[i - |a| - 1];
      }
    }
  }

  lemma PartsOutside(a: string, h: string, b: string, c: char)
    requires Hosts.AllBlank(a) && Hosts.AllBlank(b) && !Hosts.IsBlank(c)
    ensures c in a + h + b <==> c in h
  {}

  // ----- The verdict -----

  /** The request contradicts what the registry holds: another kind or hostname under its
      name, or its hostname under another name. */
  ghost predicate Contradicts(services: Services, q: Request) {
    || (q.name in services && services[q.name].kind != if Tcp(q) then TCP else HTTP)
    || (Web(q) && HostOk(q.httpHost) && Hosts.CanonicalHost(q.httpHost).Some? &&
        var h := Hosts.CanonicalHost(q.httpHost).value;
        || (q.name in services && services[q.name].hostname != h)
        || exists m :: m in services && m != q.name && services[m].hostname == h)
  }

  /** Somebody else holds the name and is not dormant. */
  predicate HeldByOther(services: Services, q: Request, regID: Id) {
    q.name in services && services[q.name].status == Ready && services[q.name].ownerKey != OwnerKeyOf(q, regID)
  }

  /** Every request gets the answer to the first of these questions that it fails, in this
      order, and is accepted if and only if it fails none. */
  lemma Verdict(c: Config, services: Services, q: Request, regID: Id)
    requires ValidConfig(c)
    ensures var r := Admit(c, services, q, regID);
      if !NameOk(q.name) then r == Err(InvalidName)
      else if !Tcp(q) && !Web(q) then r == Err(UnsupportedKind)
      else if !BackendOk(q) then r == Err(InvalidBackend)
      else if !DurationOk(q) then r == Err(InvalidRequest)
      else if Web(q) && !HostOk(q.httpHost) then r == Err(InvalidRequest)
      else if Contradicts(services, q) then r == Err(NameConflict)
      else if q.source == Docker && q.containerID == "" then r == Err(InvalidRequest)
      else if HeldByOther(services, q, regID) then r == Err(NameConflict)
      else r.Ok?
  {
    hide ValidName, NameOk, ValidBackend, BackendOk, TTLAccepted, DurationOk, HostOk, Hosts.CanonicalHost, OwnerKeyOf;
    ValidNameIff(q.name);
    ValidBackendIff(q);
    DurationIff(c, q);
    HostIff(q.httpHost);
  }
}
