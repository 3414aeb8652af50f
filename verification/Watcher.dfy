/** The Docker watcher at work on a daemon: its methods do to the registry and the
    tracked map exactly what the passes of DockerWatch say. */
module Watcher {
  import opened Types
  import opened Admission
  import opened Convergence
  import opened DockerWatch
  import opened World
  import opened WorldInvariants
  import opened Registration
  import D = Daemon
  import G = Registry
  import R = Router
  import Hosts

  /** The port an allocation delivered, if this registration needed one. */
  function PortGot(c: Config, w: World, t: Ticket, env: Env): Option<int> {
    if CreatesRuntime(w, t) then
      match FrontendFor(c, w, t, env)
      case Ok(Port(p)) => Some(p)
      case _ => None
    else None
  }

  lemma FrontendsAgree(c: Config, w: World, t: Ticket, env: Env)
    requires RuntimeInv(w.reg, w.fronts.runtimes, Idle) && Compatible(w.reg, t)
    ensures var f := FrontIn(UrlsOf(c), w.reg, t, PortGot(c, w, t, env));
      match FrontendFor(c, w, t, env)
      case Ok(g) => f == Some(g)
      case Err(_) => f == None
  {}

  /** A registration that the daemon admits publishes the ticket, if it gets a frontend. */
  lemma AdmittedPublishes(c: Config, w: World, q: Request, env: Env, t: Ticket)
    requires RuntimeInv(w.reg, w.fronts.runtimes, Idle) && q.source == Docker
    requires Fits(c, w, q, env) && Admit(c, w.reg, q, env.regID) == Ok(t)
    ensures Accepts(w.reg, t)
    ensures Registered(c, w, q, env).reg == Published(UrlsOf(c), w.reg, t, PortGot(c, w, t, env))
    ensures Outcome(c, w, q, env).Ok? <==> FrontIn(UrlsOf(c), w.reg, t, PortGot(c, w, t, env)).Some?
  {
    StartedDoes(c, w, q, env, t);
    RegisteredDoes(c, w, q, env, t);
    FrontendsAgree(c, w, t, env);
  }

  /** The registration ID of a ticket plays no part in what it publishes. */
  lemma IdIrrelevant(url: Urls, reg: Services, t: Ticket, regID: Id, port: Option<int>)
    ensures Published(url, reg, t.(regID := regID), port) == Published(url, reg, t, port)
    ensures Accepts(reg, t.(regID := regID)) <==> Accepts(reg, t)
    ensures FrontIn(url, reg, t.(regID := regID), port) == FrontIn(url, reg, t, port)
  {}

  /** The daemon accepted the request but had no frontend for it. */
  predicate AllocationFailed(r: Result<Reply, ErrorCode>) {
    r.Err? && (r.error == PortExhausted || r.error == Internal)
  }

  lemma RefusalCodes(c: Config, services: Services, q: Request, regID: Id)
    ensures var r := Admit(c, services, q, regID); r.Err? ==> r.error != PortExhausted && r.error != Internal
  {}

  /** A container's registration with the daemon is a registration of its ticket. */
  lemma DockerRegisters(c: Config, w: World, x: Container, env: Env, tracked: Tracked) returns (port: Option<int>)
    requires RuntimeInv(w.reg, w.fronts.runtimes, Idle) && Genuine(x) && Inspected(x).Found?
    requires Fits(c, w, Inspected(x).q, env)
    ensures var q := Inspected(x).q;
      RegisteredView(UrlsOf(c), View(w.reg, tracked), x.id, StaticTicket(c, x), port) ==
        View(Registered(c, w, q, env).reg, if Outcome(c, w, q, env).Ok? then tracked[x.id := q.name] else tracked)
    ensures GetsFrontend(UrlsOf(c), View(w.reg, tracked), StaticTicket(c, x), port) <==>
      !AllocationFailed(Outcome(c, w, Inspected(x).q, env))
  {
    var q := Inspected(x).q;
    AdmitFactors(c, w.reg, x, env.regID);
    var r := Admit(c, w.reg, q, env.regID);
    port := None;
    if r.Ok? {
      port := PortGot(c, w, r.value, env);
      AdmittedPublishes(c, w, q, env, r.value);
      AdmittedOutcome(c, w, q, env, r.value);
      StaticTicketValid(c, x);
      IdIrrelevant(UrlsOf(c), w.reg, StaticTicket(c, x).value, env.regID, port);
    } else {
      RefusedDoesNothing(c, w, q, env);
      RefusalCodes(c, w.reg, q, env.regID);
    }
  }

  lemma AdmittedOutcome(c: Config, w: World, q: Request, env: Env, t: Ticket)
    requires q.source == Docker && Admit(c, w.reg, q, env.regID) == Ok(t)
    ensures Outcome(c, w, q, env).Ok? <==> !AllocationFailed(Outcome(c, w, q, env))
  {
    AdmittedAsks(c, w.reg, q, env.regID, t);
  }

  lemma RefusedDoesNothing(c: Config, w: World, q: Request, env: Env)
    requires w.phase.Idle? && Admit(c, w.reg, q, env.regID).Err?
    ensures Registered(c, w, q, env) == w
    ensures Outcome(c, w, q, env) == Err(Admit(c, w.reg, q, env.regID).error)
  {}

  lemma RegisteredIds(c: Config, w: World, q: Request, env: Env)
    requires Fits(c, w, q, env)
    ensures var b := Registered(c, w, q, env).book;
      && w.book.issued.Keys <= b.issued.Keys <= w.book.issued.Keys + {env.regID}
      && b.containers <= w.book.containers + {q.containerID}
      && Registered(c, w, q, env).clock == w.clock
  {
    var r := Admit(c, w.reg, q, env.regID);
    if r.Ok? {
      StartedDoes(c, w, q, env, r.value);
      RegisteredDoes(c, w, q, env, r.value);
    } else {
      RefusedDoesNothing(c, w, q, env);
    }
  }

  // ----- The passes of DockerWatch on reachable states -----

  lemma ReachableIsWellFormed(c: Config, w: World)
    requires Inv(c, w)
    ensures WellFormed(UrlsOf(c), w.reg)
  {
    forall n | n in w.reg && w.reg[n].kind == HTTP
      ensures w.reg[n].hostname != "" && w.reg[n].frontend == R.FrontendURL(c, w.reg[n].hostname)
    {
      assert UrlInv(c, w.reg, w.phase);
    }
  }

  lemma DaemonIsWellFormed(d: D.Daemon)
    requires d.Valid()
    ensures WellFormed(UrlsOf(d.c), d.w.reg)
  {
    ReachableIsWellFormed(d.c, d.w);
  }

  /** From every reachable state, for every fixed inventory of containers and whatever
      they answer: two passes reach a fixpoint, provided no allocation of the second
      fails. */
  lemma ReconcileConverges(c: Config, w0: World, ls: seq<Label>, tracked: Tracked, inv: seq<Container>,
                           ports1: map<nat, int>, ports2: map<nat, int>, ports3: map<nat, int>)
    requires ValidConfig(c) && Init(w0)
    requires forall i, j :: 0 <= i < |inv| && 0 <= j < |inv| && inv[i].id == inv[j].id ==> inv[i] == inv[j]
    requires var v1 := Pass(UrlsOf(c), View(Exec(c, w0, ls).reg, tracked), Items(c, inv), ports1);
      AllFronted(UrlsOf(c), v1.reg, Tickets(Items(c, inv)), ports2)
    ensures var v := View(Exec(c, w0, ls).reg, tracked);
      var items := Items(c, inv);
      var v2 := Pass(UrlsOf(c), Pass(UrlsOf(c), v, items, ports1), items, ports2);
      Pass(UrlsOf(c), v2, items, ports3) == v2
  {
    InitKeeps(c, w0);
    RunKeeps(c, w0, ls);
    ReachableIsWellFormed(c, Exec(c, w0, ls));
    ContainersMakeInventory(c, inv);
    TwoPassesConverge(UrlsOf(c), View(Exec(c, w0, ls).reg, tracked), Items(c, inv), ports1, ports2, ports3);
  }

  /** The registration of a container with this ID for the example below. */
  function Asked(id: Id): Request {
    Request("a", "http", "", Backend("h", 80), true, 0, 0, Docker, "docker:" + id + ":80", id, "x")
  }

  lemma AskedIsAdmitted(c: Config, services: Services, id: Id, regID: Id)
    requires ValidConfig(c) && services == map[] && id != ""
    ensures Admit(c, services, Asked(id), regID) == Ok(TicketOf(c, Asked(id), regID, HTTP, "x"))
  {
    assert ValidName("a");
    assert Hosts.TrimSpace("h") == "h" && Hosts.TrimSpace("x") == "x" by {
      assert !Hosts.Space('h') && !Hosts.Space('x');
    }
    assert Hosts.Lower("x") == "x";
    assert Hosts.CanonicalHost("x") == Some("x");
  }

  lemma OldContainerRun(c: Config, w0: World) returns (ls: seq<Label>)
    requires ValidConfig(c) && Init(w0)
    ensures var t := TicketOf(c, Asked("old"), "r", HTTP, "x");
      Exec(c, w0, ls).reg == map["a" := RecordOf(t, R.FrontendURL(c, "x"))]
  {
    var q, env := Asked("old"), Env("r", None, true, None);
    AskedIsAdmitted(c, w0.reg, "old", "r");
    RegisteredDoes(c, w0, q, env, TicketOf(c, q, "r", HTTP, "x"));
    RegisteredIsRun(c, w0, q, env);
    ls := Plan(q, env);
  }

  /** A fresh daemon publishes container "old" and tracks it; then "old" is replaced by
      container "new" of another owner. One pass ends the old record without accepting the
      new container, and only the second pass publishes that. */
  lemma OwnerChangeRun(c: Config, w0: World) returns (ls: seq<Label>, items: seq<Item>)
    requires ValidConfig(c) && Init(w0)
    ensures var v := View(Exec(c, w0, ls).reg, map["old" := "a"]);
      var v1 := Pass(UrlsOf(c), v, items, map[0 := 1]);
      var v2 := Pass(UrlsOf(c), v1, items, map[0 := 1]);
      && Coupled(v) && |items| == 1 && items[0].id == "new" && items[0].enabled
      && "a" in v1.reg && v1.reg["a"].status == Unavailable
      && "a" in v2.reg && v2.reg["a"].status == Ready && v2.reg["a"].producerID == "new"
  {
    hide Exec, Init, Pass;
    ls := OldContainerRun(c, w0);
    var t := TicketOf(c, Asked("new"), "s", HTTP, "x");
    items := [Item("new", true, Some(t))];
    OwnersDiffer();
    OnePassIsNotEnough(UrlsOf(c), t, R.FrontendURL(c, "x"));
  }

  lemma OwnersDiffer()
    ensures Asked("new").ownerKey != "docker:old:80" && Asked("old").ownerKey == "docker:old:80"
  {
    assert Asked("new").ownerKey[7] == 'n' && "docker:old:80"[7] == 'o';
    assert "docker:" + "old" + ":80" == "docker:old:80";
  }

  lemma GenuineIsNamed(c: Config, names: Id -> Name, x: Container)
    requires Genuine(x) && (Inspected(x).Found? ==> Inspected(x).q.name == names(x.id))
    ensures ItemNamed(names, ItemOf(c, x))
  {
    if StaticTicket(c, x).Some? {
      StaticTicketValid(c, x);
    }
  }

  /** For containers whose name label is fixed by their ID: after a pass every ready
      Docker record belongs to a container that was listed and enabled. */
  lemma OnlyListedStayReady(c: Config, names: Id -> Name, v: View, inv: seq<Container>, ports: map<nat, int>, n: Name)
    requires Coupled(v) && Named(names, v.tracked) && AllGenuine(inv)
    requires forall x :: x in inv && Inspected(x).Found? ==> Inspected(x).q.name == names(x.id)
    requires var r := Pass(UrlsOf(c), v, Items(c, inv), ports).reg;
      n in r && r[n].status == Ready && r[n].source == Docker
    ensures var r := Pass(UrlsOf(c), v, Items(c, inv), ports).reg;
      exists x :: x in inv && x.labels == Enabled && r[n].producerID == x.id
  {
    var items := Items(c, inv);
    forall j | 0 <= j < |items| ensures ItemNamed(names, items[j]) {
      assert inv[j] in inv;
      GenuineIsNamed(c, names, inv[j]);
    }
    PassLeavesOnlyListed(UrlsOf(c), names, v, items, ports, n);
    var j :| 0 <= j < |items| && items[j].enabled && items[j].id == Pass(UrlsOf(c), v, items, ports).reg[n].producerID;
    assert inv[j] in inv;
  }

  // ----- The watcher -----

  /** Where registration IDs come from: all distinct, no container's, and unused from
      `next` on. */
  ghost predicate Supply(b: Book, inv: seq<Container>, tracked: Tracked, ids: nat -> Id, next: nat) {
    && (forall i, j :: 0 <= i < j ==> ids(i) != ids(j))
    && (forall i :: next <= i ==> ids(i) !in b.issued && ids(i) !in b.containers)
    && (forall i, j :: 0 <= i && 0 <= j < |inv| ==> ids(i) != inv[j].id)
    && (forall i :: 0 <= i ==> ids(i) !in tracked)
    && (forall j :: 0 <= j < |inv| ==> inv[j].id !in b.issued)
    && (forall id :: id in tracked ==> id !in b.issued)
  }

  ghost predicate AllGenuine(inv: seq<Container>) {
    forall x :: x in inv ==> Genuine(x)
  }

  /** The first `i` listed containers have been dealt with, starting from `v`, and
      `complete` says whether all allocations succeeded. */
  ghost predicate Reached(url: Urls, w: World, tracked: Tracked, v: View, items: seq<Item>, ports: map<nat, int>,
                          complete: bool, i: nat)
  {
    && i <= |items|
    && (forall k :: k in ports ==> k < i)
    && View(w.reg, tracked) == RegisteredUpTo(url, v, items, ports, i)
    && (complete <==> FrontedUpTo(url, v, items, ports, i))
  }

  /** A further pass changes nothing, whatever ports it is offered. */
  ghost predicate Fixpoint(url: Urls, v: View, items: seq<Item>) {
    forall ports :: Pass(url, v, items, ports) == v
  }

  class Watcher {
    const daemon: D.Daemon
    var tracked: Tracked

    constructor (daemon: D.Daemon)
      ensures this.daemon == daemon && tracked == map[]
    {
      this.daemon := daemon;
      tracked := map[];
    }

    ghost function Now(): View
      reads this, daemon
    {
      View(daemon.w.reg, tracked)
    }

    /** Inspects with bounded retry while the port is not published: the result is the
        answer to call `k`, the first that is not a missing port, or the eighth. */
    method InspectWithRetry(x: Container) returns (r: Inspect, ghost k: nat)
      ensures r == Inspected(x)
      ensures k <= 7 && forall j :: 0 <= j < k && j < |x.answers| ==> x.answers[j] == NotPublished
      ensures if k < |x.answers| then r == x.answers[k] && (k < 7 ==> r != NotPublished) else r == Failed
    {
      var attempt := 0;
      while attempt < |x.answers|
        invariant 0 <= attempt <= |x.answers| && attempt <= RETRIES && Settle(x.answers, attempt) == Inspected(x)
        invariant forall j :: 0 <= j < attempt ==> x.answers[j] == NotPublished
      {
        if !(x.answers[attempt] == NotPublished && attempt < RETRIES) {
          return x.answers[attempt], attempt;
        }
        attempt := attempt + 1;
      }
      r, k := Failed, attempt;
    }

    /** Publishes the container if the daemon accepts it, and only then tracks it. */
    method RegisterContainer(x: Container, regID: Id, writeOk: bool, now: int)
      returns (ghost port: Option<int>, fronted: bool)
      requires daemon.Valid() && Genuine(x) && daemon.w.clock <= now
      requires regID !in daemon.w.book.issued && regID !in daemon.w.book.containers
      requires x.id !in daemon.w.book.issued && x.id != regID
      modifies this, daemon, daemon.registry, daemon.lease, daemon.runtime, daemon.runtime.alloc.net,
               daemon.runtime.alloc.store, daemon.router
      ensures daemon.Valid() && daemon.w.clock <= now
      ensures Now() == RegisteredView(UrlsOf(daemon.c), old(Now()), x.id, StaticTicket(daemon.c, x), port)
      ensures fronted <==> GetsFrontend(UrlsOf(daemon.c), old(Now()), StaticTicket(daemon.c, x), port)
      ensures old(daemon.w.book.issued.Keys) <= daemon.w.book.issued.Keys <= old(daemon.w.book.issued.Keys) + {regID}
      ensures daemon.w.book.containers <= old(daemon.w.book.containers) + {x.id}
    {
      var answer, _ := InspectWithRetry(x);
      port, fronted := None, true;
      if !answer.Found? {
        return;
      }
      ghost var w0 := D.At(daemon.w, now);
      var r, env := daemon.Register(answer.q, regID, writeOk, None, now);
      port := DockerRegisters(daemon.c, w0, x, env, tracked);
      RegisteredIds(daemon.c, w0, answer.q, env);
      fronted := !(r.Err? && (r.error == PortExhausted || r.error == Internal));
      if r.Ok? {
        tracked := tracked[x.id := answer.q.name];
      }
    }

    /** Start and restart events register; die, stop and destroy events untrack and
        then end the publication that was tracked. */
    method HandleStop(id: Id)
      requires daemon.Valid() && (id in tracked ==> id !in daemon.w.book.issued)
      modifies this, daemon, daemon.registry, daemon.lease, daemon.runtime, daemon.runtime.alloc.net,
               daemon.runtime.alloc.store, daemon.router
      ensures daemon.Valid() && Now() == Stopped(old(Now()), id)
    {
      if id in tracked {
        var name := tracked[id];
        tracked := tracked - {id};
        ForgetKeeps(daemon.c, daemon.w, Ending(name, id));
        var cleared := daemon.ForgetDockerPublication(name, id);
      }
    }

    /** The turn of the i-th listed container. */
    method RegisterNth(inv: seq<Container>, ids: nat -> Id, next: nat, writeOk: bool, now: int, i: nat,
                       ghost v: View, ghost items: seq<Item>, ghost was: map<nat, int>, complete: bool)
      returns (ghost ports: map<nat, int>, complete': bool)
      requires daemon.Valid() && daemon.w.clock <= now && i < |inv| && items == Items(daemon.c, inv)
      requires Reached(UrlsOf(daemon.c), daemon.w, tracked, v, items, was, complete, i)
      requires AllGenuine(inv) && Supply(daemon.w.book, inv, tracked, ids, next)
      modifies this, daemon, daemon.registry, daemon.lease, daemon.runtime, daemon.runtime.alloc.net,
               daemon.runtime.alloc.store, daemon.router
      ensures daemon.Valid() && daemon.w.clock <= now && Supply(daemon.w.book, inv, tracked, ids, next + 1)
      ensures Reached(UrlsOf(daemon.c), daemon.w, tracked, v, items, ports, complete', i + 1)
    {
      hide D.Daemon.Valid, Supply, AllGenuine, Items, StaticTicket, GetsFrontend, RegisteredView, RegisteredUpTo,
        FrontedUpTo;
      ghost var port: Option<int> := None;
      var fronted := true;
      ghost var b, t := daemon.w.book, tracked;
      TurnOf(daemon.c, b, inv, tracked, ids, next, i);
      if inv[i].labels == Enabled {
        ghost var before := Now();
        port, fronted := RegisterContainer(inv[i], ids(next), writeOk, now);
        TrackedGrows(UrlsOf(daemon.c), before, inv[i].id, StaticTicket(daemon.c, inv[i]), port);
      }
      SupplyShrinks(b, daemon.w.book, inv, t, tracked, ids, next, i);
      complete' := complete && fronted;
      ports := if port.Some? then was[i := port.value] else was;
      UpToNext(UrlsOf(daemon.c), v, items, was, ports, port, i);
    }

    /** The loop over the listing. */
    method RegisterListed(inv: seq<Container>, ids: nat -> Id, next: nat, writes: nat -> bool, now: int,
                          ghost items: seq<Item>)
      returns (ghost ports: map<nat, int>, complete: bool)
      requires daemon.Valid() && daemon.w.clock <= now && items == Items(daemon.c, inv)
      requires AllGenuine(inv) && Supply(daemon.w.book, inv, tracked, ids, next)
      modifies this, daemon, daemon.registry, daemon.lease, daemon.runtime, daemon.runtime.alloc.net,
               daemon.runtime.alloc.store, daemon.router
      ensures daemon.Valid() && daemon.w.clock <= now && Supply(daemon.w.book, inv, tracked, ids, next + |inv|)
      ensures Reached(UrlsOf(daemon.c), daemon.w, tracked, old(Now()), items, ports, complete, |inv|)
    {
      ports, complete := map[], true;
      ghost var v := Now();
      var i := 0;
      hide D.Daemon.Valid, Supply, AllGenuine;
      while i < |inv|
        invariant 0 <= i <= |inv| && daemon.Valid() && daemon.w.clock <= now
        invariant Supply(daemon.w.book, inv, tracked, ids, next + i)
        invariant Reached(UrlsOf(daemon.c), daemon.w, tracked, v, items, ports, complete, i)
      {
        ports, complete := RegisterNth(inv, ids, next + i, writes(next + i), now, i, v, items, ports, complete);
        i := i + 1;
      }
    }

    /** Untracks and forgets everything tracked that was not seen. */
    method ForgetGone(seen: set<Id>)
      requires daemon.Coupled(daemon.w) && forall id :: id in tracked ==> id !in daemon.w.book.issued
      modifies this, daemon, daemon.registry, daemon.lease, daemon.runtime, daemon.runtime.alloc.net,
               daemon.runtime.alloc.store, daemon.router
      ensures daemon.Coupled(daemon.w)
      ensures Now() == View(ForgottenAll(old(daemon.w.reg), Gone(old(tracked), seen)), Kept(old(tracked), seen))
      ensures exists es: seq<Ending> ::
        daemon.w == Forgets(old(daemon.w), es) && forall e :: e in es ==> e.id in old(tracked)
    {
      hide D.Daemon.Coupled;
      var gone := Gone(tracked, seen);
      tracked := Kept(tracked, seen);
      ghost var w0, es: seq<Ending> := daemon.w, [];
      var todo := gone;
      assert ForgottenAll(w0.reg, map[]) == w0.reg;
      assert gone - todo.Keys == map[];
      while todo != map[]
        invariant daemon.Coupled(daemon.w) && tracked == Kept(old(tracked), seen) && daemon.w == Forgets(w0, es)
        invariant todo.Keys <= gone.Keys && forall id :: id in todo ==> todo[id] == gone[id]
        invariant daemon.w.book.issued == w0.book.issued && forall e :: e in es ==> e.id in old(tracked)
        invariant daemon.w.reg == ForgottenAll(w0.reg, gone - todo.Keys)
        decreases todo.Keys
      {
        var id :| id in todo;
        ForgetOneMore(w0.reg, gone, todo, id);
        var cleared := daemon.ForgetDockerPublication(todo[id], id);
        es := es + [Ending(todo[id], id)];
        assert es[..|es| - 1] + [Ending(todo[id], id)] == es;
        todo := todo - {id};
      }
      assert gone - todo.Keys == gone;
    }

    /** A whole pass over what the Docker daemon lists; `complete` tells whether every
        container that was admitted got its frontend. */
    method Reconcile(inv: seq<Container>, ids: nat -> Id, next: nat, writes: nat -> bool, now: int)
      returns (ghost ports: map<nat, int>, complete: bool)
      requires daemon.Valid() && daemon.w.clock <= now && Supply(daemon.w.book, inv, tracked, ids, next)
      requires AllGenuine(inv)
      modifies this, daemon, daemon.registry, daemon.lease, daemon.runtime, daemon.runtime.alloc.net,
               daemon.runtime.alloc.store, daemon.router
      ensures daemon.Valid() && daemon.w.clock <= now && Supply(daemon.w.book, inv, tracked, ids, next + |inv|)
      ensures Now() == Pass(UrlsOf(daemon.c), old(Now()), Items(daemon.c, inv), ports)
      ensures complete <==> FrontedUpTo(UrlsOf(daemon.c), old(Now()), Items(daemon.c, inv), ports, |inv|)
    {
      ghost var items := Items(daemon.c, inv);
      ports, complete := RegisterListed(inv, ids, next, writes, now, items);
      var seen := set i | 0 <= i < |inv| && inv[i].labels == Enabled :: inv[i].id;
      SeenAre(daemon.c, inv, seen);
      ghost var w1, t1 := daemon.w, tracked;
      ForgetGone(seen);
      ghost var es: seq<Ending> :| daemon.w == Forgets(w1, es) && forall e :: e in es ==> e.id in t1;
      ForgetsKeep(daemon.c, w1, es);
      ForgetsSupply(w1, es, inv, t1, tracked, ids, next + |inv|);
    }

    /** The periodic passes of the event loop over an inventory that stays as it is. From
        the second pass on, once one has found a frontend for everything it admitted, no
        later pass changes a record or a tracked entry. */
    method Ticks(inv: seq<Container>, ids: nat -> Id, next: nat, writes: nat -> bool, times: seq<int>)
      returns (ghost views: seq<View>, complete: seq<bool>)
      requires daemon.Valid() && Supply(daemon.w.book, inv, tracked, ids, next) && AllGenuine(inv)
      requires forall i, j :: 0 <= i < |inv| && 0 <= j < |inv| && inv[i].id == inv[j].id ==> inv[i] == inv[j]
      requires forall i :: 0 <= i < |times| ==> daemon.w.clock <= times[i]
      requires forall i, j :: 0 <= i < j < |times| ==> times[i] <= times[j]
      modifies this, daemon, daemon.registry, daemon.lease, daemon.runtime, daemon.runtime.alloc.net,
               daemon.runtime.alloc.store, daemon.router
      ensures daemon.Valid() && |views| == |complete| == |times| && (times != [] ==> Now() == views[|times| - 1])
      ensures forall r, s :: 1 <= r <= s < |times| && complete[r] ==> views[s] == views[r]
    {
      hide D.Daemon.Valid, Supply, AllGenuine, Pass, Items, Inventory, WellFormed, FrontedUpTo, Seen, Fixpoint;
      ghost var url, items := UrlsOf(daemon.c), Items(daemon.c, inv);
      ContainersMakeInventory(daemon.c, inv);
      views, complete := [], [];
      var used: nat := next;
      while |complete| < |times|
        invariant |views| == |complete| <= |times| && daemon.Valid() && Supply(daemon.w.book, inv, tracked, ids, used)
        invariant forall i :: |complete| <= i < |times| ==> daemon.w.clock <= times[i]
        invariant views != [] ==> Now() == views[|views| - 1] && tracked.Keys <= Seen(items)
        invariant forall r :: 1 <= r < |views| && complete[r] ==> Fixpoint(url, Now(), items)
        invariant forall r, s :: 1 <= r <= s < |views| && complete[r] ==> views[s] == views[r]
      {
        ghost var before := Now();
        DaemonIsWellFormed(daemon);
        var ports, done := Reconcile(inv, ids, used, writes, times[|complete|]);
        NextPass(url, before, items, ports, done, views != []);
        views, complete := views + [Now()], complete + [done];
        used := used + |inv|;
      }
    }
  }

  function Forgets(w: World, es: seq<Ending>): World {
    if es == [] then w else ForgetStep(Forgets(w, es[..|es| - 1]), es[|es| - 1])
  }

  lemma {:induction false} ForgetsKeep(c: Config, w: World, es: seq<Ending>)
    requires Inv(c, w)
    ensures Inv(c, Forgets(w, es))
  {
    if es != [] {
      ForgetsKeep(c, w, es[..|es| - 1]);
      ForgetKeeps(c, Forgets(w, es[..|es| - 1]), es[|es| - 1]);
    }
  }

  lemma {:induction false} ForgetsIds(w: World, es: seq<Ending>)
    ensures Forgets(w, es).book.issued == w.book.issued && Forgets(w, es).clock == w.clock
    ensures forall id :: id in Forgets(w, es).book.containers ==>
      id in w.book.containers || exists e :: e in es && e.id == id
  {
    if es != [] {
      ForgetsIds(w, es[..|es| - 1]);
      assert es[|es| - 1] in es;
      assert forall e :: e in es[..|es| - 1] ==> e in es;
    }
  }

  lemma ForgetsSupply(w: World, es: seq<Ending>, inv: seq<Container>,
                      t: Tracked, t': Tracked, ids: nat -> Id, next: nat)
    requires Supply(w.book, inv, t, ids, next) && (forall e :: e in es ==> e.id in t) && t'.Keys <= t.Keys
    ensures Supply(Forgets(w, es).book, inv, t', ids, next) && Forgets(w, es).clock == w.clock
  {
    ForgetsIds(w, es);
  }

  lemma SupplyShrinks(b: Book, b': Book, inv: seq<Container>,
                      t: Tracked, t': Tracked, ids: nat -> Id, next: nat, i: nat)
    requires i < |inv| && Supply(b, inv, t, ids, next)
    requires b'.issued.Keys <= b.issued.Keys + {ids(next)} && b'.containers <= b.containers + {inv[i].id}
    requires t'.Keys <= t.Keys + {inv[i].id}
    ensures Supply(b', inv, t', ids, next + 1)
  {}

  lemma SeenAre(c: Config, inv: seq<Container>, seen: set<Id>)
    requires seen == set i | 0 <= i < |inv| && inv[i].labels == Enabled :: inv[i].id
    ensures seen == Seen(Items(c, inv))
  {
    var items := Items(c, inv);
    assert forall i :: 0 <= i < |inv| ==> items[i].id == inv[i].id && (items[i].enabled <==> inv[i].labels == Enabled);
  }

  lemma TurnOf(c: Config, b: Book, inv: seq<Container>, tracked: Tracked, ids: nat -> Id, next: nat, i: nat)
    requires i < |inv| && AllGenuine(inv) && Supply(b, inv, tracked, ids, next)
    ensures Genuine(inv[i]) && ids(next) !in b.issued && ids(next) !in b.containers
    ensures inv[i].id !in b.issued && inv[i].id != ids(next)
    ensures Items(c, inv)[i] == Item(inv[i].id, inv[i].labels == Enabled, StaticTicket(c, inv[i]))
  {
    assert inv[i] in inv;
  }

  /** What a registration may do to the tracked map. */
  lemma TrackedGrows(url: Urls, v: View, id: Id, ticket: Option<Ticket>, port: Option<int>)
    ensures RegisteredView(url, v, id, ticket, port).tracked.Keys <= v.tracked.Keys + {id}
  {}

  /** Recording the port of the i-th registration leaves the earlier ones as they were. */
  lemma UpToNext(url: Urls, v: View, items: seq<Item>, ports: map<nat, int>, ports': map<nat, int>,
                 port: Option<int>, i: nat)
    requires i < |items| && (forall k :: k in ports ==> k < i)
    requires ports' == if port.Some? then ports[i := port.value] else ports
    ensures var before := RegisteredUpTo(url, v, items, ports, i);
      && RegisteredUpTo(url, v, items, ports', i + 1) ==
           (if items[i].enabled then RegisteredView(url, before, items[i].id, items[i].ticket, port) else before)
      && (FrontedUpTo(url, v, items, ports', i + 1) <==>
            && FrontedUpTo(url, v, items, ports, i)
            && (items[i].enabled ==> GetsFrontend(url, before, items[i].ticket, port)))
  {
    SamePorts(url, v, items, ports, ports', i);
    assert PortAt(ports', i) == port;
  }

  /** Ports recorded later do not change what the earlier registrations did. */
  lemma {:induction false} SamePorts(url: Urls, v: View, items: seq<Item>,
                                     ports: map<nat, int>, ports': map<nat, int>, i: nat)
    requires i <= |items| && forall k: nat :: k < i ==> PortAt(ports, k) == PortAt(ports', k)
    ensures RegisteredUpTo(url, v, items, ports, i) == RegisteredUpTo(url, v, items, ports', i)
    ensures FrontedUpTo(url, v, items, ports, i) <==> FrontedUpTo(url, v, items, ports', i)
  {
    if i > 0 {
      SamePorts(url, v, items, ports, ports', i - 1);
      assert PortAt(ports, i - 1) == PortAt(ports', i - 1);
    }
  }

  /** One more pass: a fixpoint stays, and from tracking only listed containers a complete
      pass reaches one. */
  lemma NextPass(url: Urls, v: View, items: seq<Item>, ports: map<nat, int>, complete: bool, later: bool)
    requires WellFormed(url, v.reg) && Inventory(items) && (later ==> v.tracked.Keys <= Seen(items))
    requires complete <==> FrontedUpTo(url, v, items, ports, |items|)
    ensures var v' := Pass(url, v, items, ports);
      && v'.tracked.Keys <= Seen(items)
      && (Fixpoint(url, v, items) ==> v' == v)
      && (later && complete ==> Fixpoint(url, v', items))
  {
    if later && complete {
      FrontedMeansAll(url, v, items, ports);
      forall ports' ensures Pass(url, Pass(url, v, items, ports), items, ports') == Pass(url, v, items, ports) {
        SettledAfterOne(url, v, items, ports, ports');
      }
    }
  }

  lemma ForgetOneMore(reg0: Services, gone: Tracked, todo: Tracked, id: Id)
    requires todo.Keys <= gone.Keys && id in todo && todo[id] == gone[id]
    ensures G.Cleared(ForgottenAll(reg0, gone - todo.Keys), todo[id], id) ==
      ForgottenAll(reg0, gone - (todo - {id}).Keys)
  {
    var before := ForgottenAll(reg0, gone - todo.Keys);
    var after := ForgottenAll(reg0, gone - (todo - {id}).Keys);
    var reg' := G.Cleared(before, todo[id], id);
    assert reg'.Keys == reg0.Keys == after.Keys;
    forall n | n in reg0 ensures reg'[n] == after[n] {}
  }
}
