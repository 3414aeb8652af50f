/** internal/runtime: bind-first port allocation and the table of live runtimes. */
module Frontends {
  import opened Types
  import S = Store

  // ----- The order in which ports are tried -----

  function StartOffset(hash: nat, size: int): (o: int)
    requires size > 0
    ensures 0 <= o < size
  {
    hash % size
  }

  /** The port at offset `i` of the scan that starts at `start` and wraps round. */
  function RotatedPort(minPort: int, size: int, start: int, i: int): int
    requires size > 0
  {
    minPort + (start + i) % size
  }

  /** The rest of the scan from offset `i`, without the two ports tried before it. */
  function Scan(minPort: int, size: int, start: int, skip: set<int>, i: int): seq<int>
    requires size > 0 && 0 <= i <= size
    decreases size - i
  {
    if i == size then []
    else
      var p := RotatedPort(minPort, size, start, i);
      (if p in skip then [] else [p]) + Scan(minPort, size, start, skip, i + 1)
  }

  function Suggestions(remembered: int, preferred: int): seq<int> {
    (if remembered != 0 then [remembered] else []) + (if preferred != 0 then [preferred] else [])
  }

  function RangeScan(c: Config, name: Name, remembered: int, preferred: int): seq<int> {
    var size := c.maxPort - c.minPort + 1;
    if size <= 0 then []
    else Scan(c.minPort, size, StartOffset(c.hash(name), size), {remembered, preferred}, 0)
  }

  /** Remembered port, preferred port, then the whole range from a hashed start. */
  function Candidates(c: Config, name: Name, remembered: int, preferred: int): seq<int> {
    Suggestions(remembered, preferred) + RangeScan(c, name, remembered, preferred)
  }

  lemma RotationStep(minPort: int, size: int, start: int, i: int)
    requires 0 <= start < size && 0 <= i < size
    ensures RotatedPort(minPort, size, start, i) == minPort + if start + i < size then start + i else start + i - size
  {}

  /** The scan meets each remaining port of the range once and no other. */
  lemma {:induction false} ScanCovers(minPort: int, size: int, start: int, skip: set<int>, i: int)
    requires 0 <= start < size && 0 <= i <= size
    ensures var s := Scan(minPort, size, start, skip, i);
      && (forall a, b :: 0 <= a < b < |s| ==> s[a] != s[b])
      && (forall p :: p in s <==> p !in skip && exists j :: i <= j < size && p == RotatedPort(minPort, size, start, j))
    decreases size - i
  {
    if i < size {
      ScanCovers(minPort, size, start, skip, i + 1);
      forall j | i < j < size
        ensures RotatedPort(minPort, size, start, i) != RotatedPort(minPort, size, start, j)
      {
        RotationStep(minPort, size, start, i);
        RotationStep(minPort, size, start, j);
      }
    }
  }

  /** Every port of the configured range is a candidate; past the two leading
      suggestions each appears once and nothing outside the range is tried. */
  lemma CandidatesCoverRange(c: Config, name: Name, remembered: int, preferred: int)
    requires ValidConfig(c)
    ensures var cands := Candidates(c, name, remembered, preferred);
      var lead := (if remembered != 0 then 1 else 0) + (if preferred != 0 then 1 else 0);
      && (forall p :: c.minPort <= p <= c.maxPort ==> p in cands)
      && (forall a, b :: lead <= a < b < |cands| ==> cands[a] != cands[b])
      && (forall a :: lead <= a < |cands| ==>
            c.minPort <= cands[a] <= c.maxPort && cands[a] != remembered && cands[a] != preferred)
      && 0 !in cands
  {
    var size := c.maxPort - c.minPort + 1;
    var start := StartOffset(c.hash(name), size);
    var s := Scan(c.minPort, size, start, {remembered, preferred}, 0);
    ScanCovers(c.minPort, size, start, {remembered, preferred}, 0);
    var lead := Suggestions(remembered, preferred);
    var cands := Candidates(c, name, remembered, preferred);
    assert cands == lead + s;
    forall p | c.minPort <= p <= c.maxPort ensures p in cands {
      var o := p - c.minPort;
      var j := if o >= start then o - start else o - start + size;
      RotationStep(c.minPort, size, start, j);
    }
    forall a | |lead| <= a < |cands|
      ensures c.minPort <= cands[a] <= c.maxPort && cands[a] != remembered && cands[a] != preferred
    {
      assert cands[a] in s;
      var j :| 0 <= j < size && cands[a] == RotatedPort(c.minPort, size, start, j);
      RotationStep(c.minPort, size, start, j);
    }
  }

  /** The remembered port comes first and the preferred one next, wherever they lie. */
  lemma SuggestedFirst(c: Config, name: Name, remembered: int, preferred: int)
    ensures var cands := Candidates(c, name, remembered, preferred);
      var second := if remembered != 0 then 1 else 0;
      && (remembered != 0 ==> |cands| > 0 && cands[0] == remembered)
      && (preferred != 0 ==> |cands| > second && cands[second] == preferred)
  {}

  /** How many of the scanned ports from offset `i` up to `j` are left out. */
  function Skips(minPort: int, size: int, start: int, skip: set<int>, i: int, j: int): nat
    requires size > 0 && i <= j
    decreases j - i
  {
    if i == j then 0
    else (if minPort + (start + i) % size in skip then 1 else 0) + Skips(minPort, size, start, skip, i + 1, j)
  }

  lemma {:induction false} ScanAt(minPort: int, size: int, start: int, skip: set<int>, i: int, j: int)
    requires size > 0 && 0 <= i <= j < size && minPort + (start + j) % size !in skip
    ensures var s := Scan(minPort, size, start, skip, i);
      var k := j - i - Skips(minPort, size, start, skip, i, j);
      0 <= k < |s| && s[k] == minPort + (start + j) % size
    decreases j - i
  {
    if i < j {
      ScanAt(minPort, size, start, skip, i + 1, j);
    }
  }

  /** The place of every port of the range among the candidates: the scan starts at the
      hash of the name modulo the size of the range, goes up, wraps round, and leaves out
      the two ports tried before it. */
  lemma ScannedAt(c: Config, name: Name, remembered: int, preferred: int, i: int)
    requires var size := c.maxPort - c.minPort + 1;
      && 0 <= i < size
      && c.minPort + (c.hash(name) % size + i) % size != remembered
      && c.minPort + (c.hash(name) % size + i) % size != preferred
    ensures var size := c.maxPort - c.minPort + 1;
      var start := c.hash(name) % size;
      var cands := Candidates(c, name, remembered, preferred);
      var lead := (if remembered != 0 then 1 else 0) + (if preferred != 0 then 1 else 0);
      var k := lead + i - Skips(c.minPort, size, start, {remembered, preferred}, 0, i);
      0 <= k < |cands| && cands[k] == c.minPort + (start + i) % size
  {
    var size := c.maxPort - c.minPort + 1;
    ScanAt(c.minPort, size, c.hash(name) % size, {remembered, preferred}, 0, i);
  }

  // ----- Live state -----

  /** Listening sockets, the port of each runtime, and the store. */
  datatype Fronts = Fronts(bound: set<int>, runtimes: map<Name, int>, store: S.State)

  predicate Bindable(bound: set<int>, port: int) { 1 <= port <= 65535 && port !in bound }

  /** What Allocate can end in: exhausted, or stopped at candidate `at` with the
      outcome of persisting it. */
  datatype Outcome =
    | Bound(port: int)
    | Exhausted
    | PersistFailed

  /** The host's listening sockets. `taken(k, port)` says whether some other process
      holds `port` at the k-th bind attempt. */
  class Net {
    const taken: (nat, int) -> bool
    var bound: set<int>
    var tried: seq<int>

    constructor (taken: (nat, int) -> bool)
      ensures bound == {} && tried == [] && this.taken == taken
    {
      this.taken := taken;
      bound, tried := {}, [];
    }

    method Listen(port: int) returns (ok: bool)
      modifies this
      ensures ok == (Bindable(old(bound), port) && !taken(|old(tried)|, port))
      ensures bound == (if ok then old(bound) + {port} else old(bound)) && tried == old(tried) + [port]
    {
      ok := 1 <= port <= 65535 && port !in bound && !taken(|tried|, port);
      tried := tried + [port];
      if ok {
        bound := bound + {port};
      }
    }

    method Close(port: int)
      modifies this`bound
      ensures bound == old(bound) - {port}
    {
      bound := bound - {port};
    }
  }

  /** The k-th candidate is the first one the host lets us bind, counting attempts
      from `from`; `k == |cands|` means that none is. */
  ghost predicate FirstBindable(cands: seq<int>, k: nat, bound: set<int>, taken: (nat, int) -> bool, from: nat) {
    && k <= |cands|
    && (forall i :: 0 <= i < k ==> !Bindable(bound, cands[i]) || taken(from + i, cands[i]))
    && (k < |cands| ==> Bindable(bound, cands[k]) && !taken(from + k, cands[k]))
  }

  /** The sockets, the attempts made so far and the store. */
  datatype Host = Host(bound: set<int>, tried: seq<int>, store: S.State)

  /** All of `ports` were tried, in order, and refused; nothing else happened. */
  ghost predicate Refused(ports: seq<int>, taken: (nat, int) -> bool, h: Host, h': Host) {
    && h' == h.(tried := h.tried + ports)
    && forall i :: 0 <= i < |ports| ==> !Bindable(h.bound, ports[i]) || taken(|h.tried| + i, ports[i])
  }

  /** `port` was tried and bound, then kept if and only if it could be persisted. */
  ghost predicate Landed(port: int, name: Name, writeOk: bool, taken: (nat, int) -> bool,
                         h: Host, r: Outcome, h': Host) {
    && Bindable(h.bound, port) && !taken(|h.tried|, port)
    && h'.tried == h.tried + [port]
    && var (s, ok) := S.PortSet(h.store, name, port, writeOk);
       && h'.store == s
       && r == (if ok then Bound(port) else PersistFailed)
       && h'.bound == (if ok then h.bound + {port} else h.bound)
  }

  /** From `h`, working through `cands` stops at the first bindable one, having tried
      exactly the candidates up to it, and then keeps it if and only if it persists. */
  ghost predicate Settles(cands: seq<int>, name: Name, writeOk: bool, taken: (nat, int) -> bool,
                          h: Host, r: Outcome, k: nat, h': Host)
  {
    && FirstBindable(cands, k, h.bound, taken, |h.tried|)
    && h'.tried == h.tried + (if k < |cands| then cands[..k + 1] else cands)
    && (k == |cands| ==> r == Exhausted && h'.bound == h.bound && h'.store == h.store)
    && (k < |cands| ==>
          var (s, ok) := S.PortSet(h.store, name, cands[k], writeOk);
          && h'.store == s
          && r == (if ok then Bound(cands[k]) else PersistFailed)
          && h'.bound == (if ok then h.bound + {cands[k]} else h.bound))
  }

  lemma RefusedAlso(ports: seq<int>, port: int, taken: (nat, int) -> bool, h: Host, h1: Host, h2: Host)
    requires Refused(ports, taken, h, h1) && Refused([port], taken, h1, h2)
    ensures Refused(ports + [port], taken, h, h2)
  {
    assert h.tried + (ports + [port]) == h.tried + ports + [port];
    assert !Bindable(h1.bound, [port][0]) || taken(|h1.tried| + 0, [port][0]);
  }

  lemma LandedAfterRefusals(ports: seq<int>, port: int, rest: seq<int>, name: Name, writeOk: bool,
                            taken: (nat, int) -> bool, h: Host, h1: Host, r: Outcome, h2: Host)
    requires Refused(ports, taken, h, h1) && Landed(port, name, writeOk, taken, h1, r, h2)
    ensures Settles(ports + ([port] + rest), name, writeOk, taken, h, r, |ports|, h2)
  {
    var cands := ports + ([port] + rest);
    assert cands[|ports|] == port && cands[..|ports| + 1] == ports + [port];
    assert h.tried + (ports + [port]) == h.tried + ports + [port];
    forall i | 0 <= i < |ports| ensures cands[i] == ports[i] {}
  }

  class Allocator {
    const c: Config
    const store: S.Store
    const net: Net

    constructor (c: Config, store: S.Store, net: Net)
      ensures this.c == c && this.store == store && this.net == net
    {
      this.c, this.store, this.net := c, store, net;
    }

    ghost function View(): Host
      reads store, net
    {
      Host(net.bound, net.tried, store.View())
    }

    /** Binds, then persists; a listener whose assignment is not durable is closed.
        `ports` were already refused and `rest` would come next. */
    method Try(name: Name, port: int, writeOk: bool, ghost h: Host, ghost ports: seq<int>, ghost rest: seq<int>)
      returns (r: Option<Outcome>)
      requires Refused(ports, net.taken, h, View())
      modifies store, net
      ensures r.None? ==> Refused(ports + [port], net.taken, h, View())
      ensures r.Some? ==> Settles(ports + ([port] + rest), name, writeOk, net.taken, h, r.value, |ports|, View())
    {
      ghost var h1 := View();
      var listening := net.Listen(port);
      if !listening {
        RefusedAlso(ports, port, net.taken, h, h1, View());
        return None;
      }
      var ok := store.SetPort(name, port, writeOk);
      if !ok {
        net.Close(port);
      }
      r := Some(if ok then Bound(port) else PersistFailed);
      LandedAfterRefusals(ports, port, rest, name, writeOk, net.taken, h, h1, r.value, View());
    }

    /** The loop over the range. */
    method ScanRange(name: Name, remembered: int, preferred: int, writeOk: bool, size: int, start: int,
                     ghost h: Host, ghost ports: seq<int>)
      returns (r: Outcome, ghost k: nat)
      requires 0 < size && Refused(ports, net.taken, h, View())
      modifies store, net
      ensures Settles(ports + Scan(c.minPort, size, start, {remembered, preferred}, 0), name, writeOk, net.taken,
                      h, r, k, View())
    {
      ghost var cands := ports + Scan(c.minPort, size, start, {remembered, preferred}, 0);
      ghost var done := ports;
      for i := 0 to size
        invariant cands == done + Scan(c.minPort, size, start, {remembered, preferred}, i)
        invariant Refused(done, net.taken, h, View())
      {
        var port := RotatedPort(c.minPort, size, start, i);
        ghost var rest := Scan(c.minPort, size, start, {remembered, preferred}, i + 1);
        if port == remembered || port == preferred {
          assert [] + rest == rest;
        } else {
          var tried := Try(name, port, writeOk, h, done, rest);
          if tried.Some? {
            return tried.value, |done|;
          }
          assert done + ([port] + rest) == done + [port] + rest;
          done := done + [port];
        }
      }
      assert cands == done;
      r, k := Exhausted, |done|;
    }

    /** The remembered and the preferred port, if there are any. */
    method TrySuggestions(name: Name, remembered: int, preferred: int, writeOk: bool,
                          ghost h: Host, ghost rest: seq<int>)
      returns (r: Option<Outcome>, ghost done: seq<int>)
      requires Refused([], net.taken, h, View())
      modifies store, net
      ensures r.None? ==> done == Suggestions(remembered, preferred) && Refused(done, net.taken, h, View())
      ensures r.Some? ==>
        Settles(Suggestions(remembered, preferred) + rest, name, writeOk, net.taken, h, r.value, |done|, View())
    {
      r, done := None, [];
      ghost var second := if preferred != 0 then [preferred] + rest else rest;
      if remembered != 0 {
        r := Try(name, remembered, writeOk, h, done, second);
        if r.Some? {
          assert done + ([remembered] + second) == Suggestions(remembered, preferred) + rest;
          return;
        }
        done := done + [remembered];
      }
      if preferred != 0 {
        assert done + ([preferred] + rest) == Suggestions(remembered, preferred) + rest;
        r := Try(name, preferred, writeOk, h, done, rest);
        if r.Some? {
          return;
        }
        done := done + [preferred];
      }
    }

    /** Takes the first bindable candidate and no other, and gives up only after
        every candidate has been tried and refused. */
    method Allocate(name: Name, preferred: int, writeOk: bool) returns (r: Outcome, ghost k: nat)
      modifies store, net
      ensures Settles(Candidates(c, name, S.Remembered(old(store.View()), name), preferred), name, writeOk, net.taken,
                      old(View()), r, k, View())
    {
      var remembered := store.Port(name);
      var size := c.maxPort - c.minPort + 1;
      ghost var scan := RangeScan(c, name, remembered, preferred);
      ghost var h := View();
      var suggested, done := TrySuggestions(name, remembered, preferred, writeOk, h, scan);
      if suggested.Some? {
        return suggested.value, |done|;
      }
      if size <= 0 {
        assert done + scan == done;
        return Exhausted, |done|;
      }
      r, k := ScanRange(name, remembered, preferred, writeOk, size, StartOffset(c.hash(name), size), h, done);
    }
  }

  class Manager {
    const alloc: Allocator
    var runtimes: map<Name, int>

    constructor (alloc: Allocator)
      ensures runtimes == map[] && this.alloc == alloc
    {
      this.alloc := alloc;
      runtimes := map[];
    }

    ghost function View(): Fronts
      reads this, alloc.net, alloc.store
    {
      Fronts(alloc.net.bound, runtimes, alloc.store.View())
    }

    /** An existing runtime is returned untouched; otherwise one is created on the
        first bindable candidate, and only on a durable one. */
    method EnsureTCPRuntime(name: Name, preferred: int, writeOk: bool) returns (r: Outcome, ghost k: nat)
      modifies this, alloc.store, alloc.net
      ensures name in old(runtimes) ==> r == Bound(old(runtimes)[name]) && View() == old(View())
      ensures name !in old(runtimes) ==>
        && Settles(Candidates(alloc.c, name, S.Remembered(old(alloc.store.View()), name), preferred), name, writeOk,
                   alloc.net.taken, old(alloc.View()), r, k, alloc.View())
        && runtimes == if r.Bound? then old(runtimes)[name := r.port] else old(runtimes)
    {
      k := 0;
      if name in runtimes {
        return Bound(runtimes[name]), 0;
      }
      r, k := alloc.Allocate(name, preferred, writeOk);
      if r.Bound? {
        runtimes := runtimes[name := r.port];
      }
    }

    /** Drains the table and closes every listener in it, each once. */
    method Shutdown()
      modifies this, alloc.net
      ensures runtimes == map[]
      ensures alloc.net.bound == old(alloc.net.bound) - old(runtimes).Values
    {
      var todo := runtimes;
      runtimes := map[];
      while todo != map[]
        invariant runtimes == map[]
        invariant todo.Keys <= old(runtimes).Keys && forall n :: n in todo ==> todo[n] == old(runtimes)[n]
        invariant alloc.net.bound ==
          old(alloc.net.bound) - (set n | n in old(runtimes) && n !in todo :: old(runtimes)[n])
        decreases todo.Keys
      {
        var n :| n in todo;
        alloc.net.Close(todo[n]);
        todo := todo - {n};
      }
    }
  }

  /** A port that was remembered is taken back whenever it can be bound, even if the
      disk refuses every write: the assignment is already durable. */
  lemma RememberedPortReused(c: Config, name: Name, preferred: int, s: S.State, bound: set<int>,
                             taken: (nat, int) -> bool, from: nat, k: nat, writeOk: bool)
    requires S.Remembered(s, name) != 0 && !s.dirty
    requires Bindable(bound, S.Remembered(s, name)) && !taken(from, S.Remembered(s, name))
    requires FirstBindable(Candidates(c, name, S.Remembered(s, name), preferred), k, bound, taken, from)
    ensures k == 0 && Candidates(c, name, S.Remembered(s, name), preferred)[k] == S.Remembered(s, name)
    ensures S.PortSet(s, name, S.Remembered(s, name), writeOk) == (s, true)
  {
    assert Candidates(c, name, S.Remembered(s, name), preferred)[0] == S.Remembered(s, name);
  }

  /** A preferred port that can be bound is the one that is tried and kept, in the range or
      not, unless a remembered one can be bound before it. */
  lemma PreferredPortTaken(c: Config, name: Name, remembered: int, preferred: int, bound: set<int>,
                           taken: (nat, int) -> bool, from: nat, k: nat)
    requires preferred != 0 && Bindable(bound, preferred)
    requires !taken(from + if remembered != 0 then 1 else 0, preferred)
    requires remembered == 0 || !Bindable(bound, remembered) || taken(from, remembered)
    requires FirstBindable(Candidates(c, name, remembered, preferred), k, bound, taken, from)
    ensures var cands := Candidates(c, name, remembered, preferred); k < |cands| && cands[k] == preferred
  {
    SuggestedFirst(c, name, remembered, preferred);
    var cands := Candidates(c, name, remembered, preferred);
    var second := if remembered != 0 then 1 else 0;
    assert !(Bindable(bound, cands[second]) && !taken(from + second, cands[second])) || k <= second;
  }

  /** So that is the port Allocate returns, if it can be written down. */
  lemma AllocatesPreferred(c: Config, name: Name, preferred: int, writeOk: bool, taken: (nat, int) -> bool,
                           h: Host, r: Outcome, k: nat, h': Host)
    requires var remembered := S.Remembered(h.store, name);
      && preferred != 0 && Bindable(h.bound, preferred)
      && !taken(|h.tried| + if remembered != 0 then 1 else 0, preferred)
      && (remembered == 0 || !Bindable(h.bound, remembered) || taken(|h.tried|, remembered))
      && Settles(Candidates(c, name, remembered, preferred), name, writeOk, taken, h, r, k, h')
    ensures r == if S.PortSet(h.store, name, preferred, writeOk).1 then Bound(preferred) else PersistFailed
  {
    PreferredPortTaken(c, name, S.Remembered(h.store, name), preferred, h.bound, taken, |h.tried|, k);
  }

  /** Exhaustion is never reported while a port of the range could be bound. */
  lemma ExhaustedMeansAllRefused(c: Config, name: Name, remembered: int, preferred: int, bound: set<int>,
                                 taken: (nat, int) -> bool, from: nat, p: int)
    requires ValidConfig(c) && c.minPort <= p <= c.maxPort
    requires FirstBindable(Candidates(c, name, remembered, preferred),
                           |Candidates(c, name, remembered, preferred)|, bound, taken, from)
    ensures p in bound || exists i: nat ::
      from <= i < from + |Candidates(c, name, remembered, preferred)| && taken(i, p)
  {
    CandidatesCoverRange(c, name, remembered, preferred);
    var cands := Candidates(c, name, remembered, preferred);
    assert p in cands;
    var i :| 0 <= i < |cands| && cands[i] == p;
    assert !Bindable(bound, cands[i]) || taken(from + i, cands[i]);
  }
}
