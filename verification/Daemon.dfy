/** internal/daemon: the component that ties the managers together. The ghost field
    `w` is the state of the transition system; every method moves it by the labels its
    code executes and keeps it equal to the managers' contents. */
module Daemon {
  import opened Types
  import opened Admission
  import opened World
  import opened WorldInvariants
  import opened Registration
  import G = Registry
  import L = Leases
  import S = Store
  import F = Frontends
  import R = Router
  import Hosts

  function At(w: World, now: int): World { w.(clock := now) }

  // ----- The labels of each operation -----

  function RegisterLabels(w: World, q: Request, env: Env, now: int): seq<Label>
    requires w.clock <= now
  {
    [Tick(now - w.clock)] + Plan(q, env)
  }

  function HeartbeatLabels(w: World, id: Id, token: string, now: int): seq<Label>
    requires w.clock <= now
  {
    [Tick(now - w.clock)] + [Renew(id, token)]
  }

  function DeleteLabels(w: World, id: Id, token: string): seq<Label> {
    if id !in w.book.leases then [Get(id)]
    else
      var e := Ending(w.book.leases[id].name, id);
      [Get(id)] + [Delete(e, token)] + [End(e)]
  }

  function Ends(es: seq<Ending>): seq<Label> {
    if es == [] then [] else Ends(es[..|es| - 1]) + [End(es[|es| - 1])]
  }

  lemma OneLabel(c: Config, w: World, l: Label)
    ensures Exec(c, w, [l]) == Apply(c, w, l)
  {
    assert [] + [l] == [l];
    ExecSplit(c, w, [], l);
  }

  lemma TickIsRun(c: Config, w: World, now: int)
    requires w.clock <= now
    ensures Exec(c, w, [Tick(now - w.clock)]) == At(w, now)
  {
    OneLabel(c, w, Tick(now - w.clock));
  }

  lemma RegisterIsRun(c: Config, w: World, q: Request, env: Env, now: int)
    requires w.clock <= now
    ensures Registered(c, At(w, now), q, env) == Exec(c, w, RegisterLabels(w, q, env, now))
  {
    TickIsRun(c, w, now);
    ExecConcat(c, w, [Tick(now - w.clock)], Plan(q, env));
    RegisteredIsRun(c, At(w, now), q, env);
  }

  lemma HeartbeatIsRun(c: Config, w: World, id: Id, token: string, now: int)
    requires w.clock <= now
    ensures At(w, now).(book := Renewed(w.book, id, token, now)) == Exec(c, w, HeartbeatLabels(w, id, token, now))
  {
    TickIsRun(c, w, now);
    ExecSplit(c, w, [Tick(now - w.clock)], Renew(id, token));
    RenewStep(c, At(w, now), id, token);
  }

  lemma DeleteIsRun(c: Config, w: World, id: Id, token: string)
    requires OnceInv(w.book)
    ensures DeletedWorld(w, id, token) == Exec(c, w, DeleteLabels(w, id, token))
  {
    OneLabel(c, w, Get(id));
    var w1 := w.(book := Fetch(w.book, id));
    GetStep(c, w, id);
    if id in w.book.leases {
      var e := Ending(w.book.leases[id].name, id);
      var w2 := w1.(book := Deleted(w1.book, e, token));
      DeleteStep(c, w1, e, token);
      EndSteps(c, w2, e);
      ExecSplit(c, w, [Get(id)], Delete(e, token));
      ExecSplit(c, w, [Get(id)] + [Delete(e, token)], End(e));
      assert e !in w.book.pending;
    }
  }

  lemma {:induction false} EndedIsRun(c: Config, w: World, es: seq<Ending>)
    ensures Ended(w, es) == Exec(c, w, Ends(es))
  {
    if es != [] {
      var front, e := es[..|es| - 1], es[|es| - 1];
      EndedIsRun(c, w, front);
      ExecSplit(c, w, Ends(front), End(e));
      EndSteps(c, Ended(w, front), e);
    }
  }

  lemma SweepIsRun(c: Config, w: World, at: int, es: seq<Ending>)
    requires at <= w.clock
    ensures Ended(w.(book := Swept(w.book, at)), es) == Exec(c, w, [Sweep(at)] + Ends(es))
  {
    OneLabel(c, w, Sweep(at));
    EndedIsRun(c, w.(book := Swept(w.book, at)), es);
    ExecConcat(c, w, [Sweep(at)], Ends(es));
  }

  class Daemon {
    const c: Config
    const registry: G.Registry
    const lease: L.Manager
    const runtime: F.Manager
    const router: R.Router
    ghost var w: World

    /** The managers hold what the world says. */
    ghost predicate Coupled(v: World)
      reads registry, lease, runtime, runtime.alloc.net, runtime.alloc.store, router
    {
      && v.phase.Idle? && runtime.alloc.c == c
      && v.reg == registry.services && v.book.leases == lease.entries
      && v.fronts == runtime.View() && v.routes == router.routes
    }

    ghost predicate Valid()
      reads this, registry, lease, runtime, runtime.alloc.net, runtime.alloc.store, router
    {
      Inv(c, w) && Coupled(w)
    }

    /** New, over a state file that Load accepts. */
    constructor (c: Config, file: S.File, backupOk: bool, taken: (nat, int) -> bool, now: int)
      requires ValidConfig(c) && S.Loaded(file, backupOk).Ok?
      ensures Valid() && this.c == c && Init(w)
      ensures w == Fresh(now, map[], {}, S.Loaded(file, backupOk).value, file)
      ensures fresh(registry) && fresh(lease) && fresh(runtime) && fresh(runtime.alloc.net)
      ensures fresh(runtime.alloc.store) && fresh(router)
    {
      var store := new S.Store(file, backupOk);
      var net := new F.Net(taken);
      var alloc := new F.Allocator(c, store, net);
      this.c := c;
      registry := new G.Registry();
      lease := new L.Manager(c.ttl);
      runtime := new F.Manager(alloc);
      router := new R.Router();
      w := Fresh(now, map[], {}, S.Loaded(file, backupOk).value, file);
      new;
      FreshKeeps(c, now, map[], {}, file, backupOk);
    }

    /** The checks of registerLocked, one after the other. */
    method Check(q: Request, regID: Id) returns (r: Result<Ticket, ErrorCode>)
      requires RouteInv(registry.services, router.routes, Idle)
      ensures r == Admit(c, registry.services, q, regID)
    {
      if !ValidName(q.name) {
        return Err(InvalidName);
      }
      var kind := ParseKind(q.kind);
      if kind.None? {
        return Err(UnsupportedKind);
      }
      if !ValidBackend(q.backend, q.loopback) {
        return Err(InvalidBackend);
      }
      var ttl := c.ttl;
      if q.source != Docker && q.ttlSeconds > 0 {
        ttl := Wrap64(q.ttlSeconds * SECOND);
      }
      if q.source != Docker && (ttl < MIN_TTL || ttl > MAX_TTL) {
        return Err(InvalidRequest);
      }
      var hostname := Some("");
      if kind.value == HTTP {
        hostname := Hosts.CanonicalHost(q.httpHost);
        if hostname.None? {
          return Err(InvalidRequest);
        }
      }
      var t := TicketOf(c, q, regID, kind.value, hostname.value);
      var free := CheckIdentity(t);
      if !free {
        return Err(NameConflict);
      }
      if q.source == Docker && q.containerID == "" {
        return Err(InvalidRequest);
      }
      var owned := registry.CheckOwnership(q.name, t.ownerKey);
      if !owned {
        return Err(NameConflict);
      }
      r := Ok(t);
    }

    /** Kind and hostname are immutable, and a hostname has one owner. */
    method CheckIdentity(t: Ticket) returns (ok: bool)
      requires RouteInv(registry.services, router.routes, Idle)
      requires t.kind == HTTP ==> t.hostname != ""
      ensures ok == Compatible(registry.services, t)
    {
      var existing := registry.Resolve(t.name);
      if existing.Some? {
        if existing.value.kind != t.kind {
          return false;
        }
        if t.kind == HTTP && existing.value.hostname != t.hostname {
          return false;
        }
      }
      ok := true;
      if t.kind == HTTP {
        var holder := registry.FindByHostname(t.hostname);
        if holder.Some? {
          G.HostnameVerdict(registry.services, t.hostname, t.name, holder.value);
          ok := holder.value.name == t.name;
        }
      }
    }

    /** Takes the previous publication's lease away on a same-owner replacement. */
    method RetireLease(t: Ticket)
      modifies lease
      ensures lease.entries == if Retires(registry.services, t)
                               then old(lease.entries) - {registry.services[t.name].producerID} else old(lease.entries)
    {
      var existing := registry.Resolve(t.name);
      if existing.Some? && existing.value.ownerKey == t.ownerKey && existing.value.producerID != t.producerID
         && existing.value.source != Docker
      {
        lease.Remove(existing.value.producerID);
      }
    }

    /** The frontend of an admitted registration: a URL, or a port that is bound. */
    method Front(t: Ticket, writeOk: bool, ghost w0: World, ghost env: Env)
      returns (r: Result<Frontend, ErrorCode>, ghost pick: Option<nat>)
      requires runtime.alloc.c == c && w0.fronts == runtime.View() && env.writeOk == writeOk
      modifies runtime, runtime.alloc.net, runtime.alloc.store
      ensures r == FrontendFor(c, w0, t, env.(pick := pick))
      ensures runtime.View() == Attempted(c, w0, t, env.(pick := pick))
      ensures CreatesRuntime(w0, t) && pick.Some? ==>
        pick.value < |PortsFor(c, w0, t)| && F.Bindable(w0.fronts.bound, PortsFor(c, w0, t)[pick.value])
      ensures FirstPick(c, w0, t, env.(pick := pick), runtime.alloc.net.taken, |old(runtime.alloc.net.tried)|)
    {
      pick := None;
      if t.kind == HTTP {
        return Ok(R.FrontendURL(c, t.hostname)), None;
      }
      var got, k := runtime.EnsureTCPRuntime(t.name, t.preferred, writeOk);
      if t.name !in w0.fronts.runtimes && !got.Exhausted? {
        pick := Some(k);
      }
      match got {
        case Bound(port) => r := Ok(Port(port));
        case Exhausted => r := Err(PortExhausted);
        case PersistFailed => r := Err(Internal);
      }
    }

    /** Installs the record, the route and, for leased sources, the lease. */
    method Commit(t: Ticket, frontend: Frontend, token: Option<string>, now: int) returns (r: Result<Reply, ErrorCode>)
      requires G.Claimable(registry.services, t.name, t.ownerKey) && (t.source != Docker ==> t.ttl > 0)
      modifies registry, lease, router
      ensures registry.services == old(registry.services)[t.name := RecordOf(t, frontend)]
      ensures router.routes ==
        if t.kind == HTTP then R.Routed(old(router.routes), t.hostname, t.name) else old(router.routes)
      ensures lease.entries == if t.source == Docker || token.None? then old(lease.entries)
        else old(lease.entries)[t.regID := L.NewEntry(t.regID, t.name, t.ownerKey, token.value, t.ttl, now)]
      ensures r == if t.source == Docker then Ok(Reply(t.regID, frontend, 0))
                   else if token.None? then Err(Internal) else Ok(Reply(t.regID, frontend, t.ttl / SECOND))
    {
      var installed := registry.CreateOrReplaceOwned(RecordOf(t, frontend));
      if t.kind == HTTP {
        router.Set(t.hostname, t.name);
      }
      if t.source == Docker {
        return Ok(Reply(t.regID, frontend, 0));
      }
      if token.None? {
        return Err(Internal);
      }
      var e := lease.AddWithTTL(t.regID, t.name, t.ownerKey, token.value, t.ttl, now);
      r := Ok(Reply(t.regID, frontend, t.ttl / SECOND));
    }

    /** Everything after the checks. */
    method Publish(q: Request, t: Ticket, env0: Env, now: int, ghost w0: World)
      returns (r: Result<Reply, ErrorCode>, ghost env: Env)
      requires Coupled(w0) && w0.clock == now && FreshID(w0.book, q, env0.regID)
      requires Admit(c, w0.reg, q, env0.regID) == Ok(t)
      modifies registry, lease, runtime, runtime.alloc.net, runtime.alloc.store, router
      ensures env == env0.(pick := env.pick) && Fits(c, w0, q, env)
      ensures FirstPick(c, w0, t, env, runtime.alloc.net.taken, |old(runtime.alloc.net.tried)|)
      ensures r == Outcome(c, w0, q, env)
      ensures Coupled(Registered(c, w0, q, env))
    {
      hide FirstPick;
      hide Admit, Registered, Started, Compatible, F.Bindable;
      StartedDoes(c, w0, q, env0, t);
      AdmittedAsks(c, w0.reg, q, env0.regID, t);
      RetireLease(t);
      var front, pick := Front(t, env0.writeOk, w0, env0);
      env := env0.(pick := pick);
      RegisteredDoes(c, w0, q, env, t);
      if front.Err? {
        return Err(front.error), env;
      }
      r := Commit(t, front.value, env0.token, now);
    }

    /** The checks, and the rest if they pass. */
    method CheckAndPublish(q: Request, env0: Env, now: int, ghost w0: World)
      returns (r: Result<Reply, ErrorCode>, ghost env: Env)
      requires Coupled(w0) && w0.clock == now && FreshID(w0.book, q, env0.regID) && env0.pick == None
      requires RouteInv(w0.reg, w0.routes, Idle)
      modifies registry, lease, runtime, runtime.alloc.net, runtime.alloc.store, router
      ensures env == env0.(pick := env.pick) && Fits(c, w0, q, env)
      ensures var a := Admit(c, w0.reg, q, env0.regID);
        a.Ok? ==> FirstPick(c, w0, a.value, env, runtime.alloc.net.taken, |old(runtime.alloc.net.tried)|)
      ensures r == Outcome(c, w0, q, env)
      ensures Coupled(Registered(c, w0, q, env))
    {
      hide FirstPick;
      env := env0;
      var checked := Check(q, env0.regID);
      match checked {
        case Err(e) => r := Err(e);
        case Ok(t) => r, env := Publish(q, t, env0, now, w0);
      }
    }

    /** The whole of Register, under the daemon mutex: the state moves by the plan of a
        registration and the caller is told its outcome. */
    method Register(q: Request, regID: Id, writeOk: bool, token: Option<string>, now: int)
      returns (r: Result<Reply, ErrorCode>, ghost env: Env)
      requires Valid() && FreshID(w.book, q, regID) && w.clock <= now
      modifies this, registry, lease, runtime, runtime.alloc.net, runtime.alloc.store, router
      ensures Valid()
      ensures env.regID == regID && env.writeOk == writeOk && env.token == token && Fits(c, At(old(w), now), q, env)
      ensures var a := Admit(c, old(w).reg, q, regID);
        a.Ok? ==> FirstPick(c, At(old(w), now), a.value, env, runtime.alloc.net.taken, |old(runtime.alloc.net.tried)|)
      ensures r == Outcome(c, At(old(w), now), q, env)
      ensures w == Registered(c, At(old(w), now), q, env) == Exec(c, old(w), RegisterLabels(old(w), q, env, now))
    {
      hide FirstPick;
      ghost var w0 := At(w, now);
      r, env := CheckAndPublish(q, Env(regID, None, writeOk, token), now, w0);
      w := Registered(c, w0, q, env);
      RegisteredKeeps(c, w0, q, env);
      RegisterIsRun(c, old(w), q, env, now);
    }

    /** Heartbeat touches the lease table and nothing else, whatever it answers. */
    method Heartbeat(id: Id, token: string, now: int) returns (r: Result<int, L.LeaseError>)
      requires Valid() && w.clock <= now
      modifies this, lease
      ensures Valid() && w == At(old(w), now).(book := Renewed(old(w).book, id, token, now))
      ensures w == Exec(c, old(w), HeartbeatLabels(old(w), id, token, now))
      ensures r == L.Renewal(old(lease.entries), id, token, now).1
    {
      r := lease.Renew(id, token, now);
      RenewedTable(w.book, id, token, now);
      RenewedBook(w.reg, w.book, w.phase, id, token, now);
      HeartbeatIsRun(c, w, id, token, now);
      w := At(w, now).(book := Renewed(w.book, id, token, now));
    }

    /** Clears the record under the daemon mutex, on behalf of an ended lease or of a
        container that is gone. */
    method EndPublication(e: Ending, ghost container: bool) returns (cleared: bool)
      requires Coupled(w)
      requires if container then e.id !in w.book.issued else e in w.book.pending
      modifies this, registry
      ensures Coupled(w) && w == if container then ForgetStep(old(w), e) else EndStep(old(w), e)
      ensures cleared <==> e.name in old(w.reg) && old(w.reg)[e.name].producerID == e.id
    {
      cleared := registry.ClearBackendIf(e.name, e.id);
      w := if container then ForgetStep(w, e) else EndStep(w, e);
    }

    /** Looks the entry up, deletes the lease, then ends the publication it looked up. */
    method DeleteAndEnd(id: Id, token: string) returns (error: Option<L.LeaseError>)
      requires Coupled(w)
      modifies this, registry, lease
      ensures Coupled(w) && w == DeletedWorld(old(w), id, token)
      ensures error == L.Deletion(old(lease.entries), id, token).1
    {
      var found := lease.Get(id);
      if found.None? {
        return Some(L.NotFound);
      }
      var e := Ending(found.value.name, id);
      error := lease.Delete(id, token);
      w := w.(book := Deleted(Fetch(w.book, id), e, token));
      if error.None? {
        var cleared := EndPublication(e, false);
      }
    }

    method DeleteRegistration(id: Id, token: string) returns (error: Option<L.LeaseError>)
      requires Valid()
      modifies this, registry, lease
      ensures Valid() && w == DeletedWorld(old(w), id, token) == Exec(c, old(w), DeleteLabels(old(w), id, token))
      ensures error == L.Deletion(old(lease.entries), id, token).1
    {
      DeletedWorldKeeps(c, w, id, token);
      DeleteIsRun(c, w, id, token);
      error := DeleteAndEnd(id, token);
    }

    method ForgetDockerPublication(name: Name, containerID: Id) returns (cleared: bool)
      requires Coupled(w) && containerID !in w.book.issued
      modifies this, registry
      ensures Coupled(w) && w == ForgetStep(old(w), Ending(name, containerID))
      ensures w == Exec(c, old(w), [Forget(Ending(name, containerID))])
    {
      OneLabel(c, w, Forget(Ending(name, containerID)));
      cleared := EndPublication(Ending(name, containerID), true);
    }

    /** Ends taken publications one by one. */
    method EndAll(taken: seq<Ending>)
      requires Coupled(w) && Distinct(taken) && forall e :: e in taken ==> e in w.book.pending
      modifies this, registry
      ensures Coupled(w) && w == Ended(old(w), taken)
    {
      var i := 0;
      while i < |taken|
        invariant 0 <= i <= |taken|
        invariant Coupled(w) && w == Ended(old(w), taken[..i])
      {
        EndedPending(old(w), taken, i);
        assert taken[..i + 1][..i] == taken[..i];
        var cleared := EndPublication(taken[i], false);
        i := i + 1;
      }
      assert taken[..i] == taken;
    }

    /** One sweep, uninterrupted: afterwards no overdue lease is left and exactly the
        records that overdue leases stood for have become dormant. */
    method SweepLeases(at: int) returns (ghost taken: seq<Ending>)
      requires Valid() && at <= w.clock
      modifies this, registry, lease
      ensures Valid() && w == Exec(c, old(w), [Sweep(at)] + Ends(taken))
      ensures lease.entries == L.Surviving(old(lease.entries), at)
      ensures w.reg.Keys == old(w.reg.Keys)
      ensures forall n :: n in w.reg ==>
        w.reg[n] == if old(w.reg)[n].producerID in L.Overdue(old(lease.entries), at)
                    then G.Dormant(old(w.reg)[n]) else old(w.reg)[n]
    {
      ghost var w0 := w;
      var out, ids := lease.TakeExpired(at);
      var expired := seq(|ids|, i requires 0 <= i < |ids| => Ending(out[i].name, ids[i]));
      taken := expired;
      TakenAreOverdue(w0.book.leases, at, out, ids, taken);
      SweepDoes(c, w0, at, taken);
      SweepIsRun(c, w0, at, taken);
      w := w.(book := Swept(w.book, at));
      EndAll(expired);
    }
  }

  lemma TakenAreOverdue(leases: L.Table, at: int, out: seq<L.Entry>, ids: seq<Id>, taken: seq<Ending>)
    requires |out| == |ids| == |taken|
    requires forall i :: 0 <= i < |ids| ==>
      ids[i] in leases && out[i] == leases[ids[i]] && taken[i] == Ending(out[i].name, ids[i])
    requires forall i, j :: 0 <= i < j < |ids| ==> ids[i] != ids[j]
    requires (set i | 0 <= i < |ids| :: ids[i]) == L.Overdue(leases, at)
    ensures Distinct(taken)
    ensures forall e :: e in taken ==> e.id in L.Overdue(leases, at) && e.name == leases[e.id].name
    ensures forall id :: id in L.Overdue(leases, at) <==> exists e :: e in taken && e.id == id
  {
    forall id | id in L.Overdue(leases, at) ensures exists e :: e in taken && e.id == id {
      var i :| 0 <= i < |ids| && ids[i] == id;
      assert taken[i] in taken;
    }
  }

  // ----- Deletion -----

  /** The three steps of an uninterrupted deletion. */
  function DeletedWorld(w: World, id: Id, token: string): World {
    if id !in w.book.leases then w
    else
      var e := Ending(w.book.leases[id].name, id);
      var v := w.(book := Deleted(Fetch(w.book, id), e, token));
      if L.Deletion(w.book.leases, id, token).1.None? then EndStep(v, e) else v
  }

  lemma DeletedWorldKeeps(c: Config, w: World, id: Id, token: string)
    requires Inv(c, w)
    ensures Inv(c, DeletedWorld(w, id, token))
  {
    if id in w.book.leases {
      var e := Ending(w.book.leases[id].name, id);
      FetchKeeps(c, w, id);
      var v := w.(book := Fetch(w.book, id));
      DeletedKeeps(c, v, e, token);
      EndKeeps(c, v.(book := Deleted(v.book, e, token)), e);
    }
  }

  /** A deletion with the right token makes exactly the record of that registration
      dormant and leaves no end pending; any other deletion changes no record. */
  lemma DeletionEndsItsPublication(c: Config, w: World, id: Id, token: string)
    requires LeaseInv(w.reg, w.book.leases) && OnceInv(w.book) && w.phase.Idle?
    ensures var w' := DeletedWorld(w, id, token);
      if id in w.book.leases && w.book.leases[id].token == token then
        var n := w.book.leases[id].name;
        && n in w.reg && w'.reg == w.reg[n := G.Dormant(w.reg[n])]
        && w'.book.leases == w.book.leases - {id} && w'.book.pending == w.book.pending
      else
        w'.reg == w.reg && w'.book.leases == w.book.leases && w'.book.pending == w.book.pending
  {
    if id in w.book.leases && w.book.leases[id].token == token {
      var e := Ending(w.book.leases[id].name, id);
      assert e !in w.book.pending;
      assert w.book.pending + {e} - {e} == w.book.pending;
    }
  }

  lemma DeletedKeeps(c: Config, w: World, e: Ending, token: string)
    requires Inv(c, w)
    ensures Inv(c, w.(book := Deleted(w.book, e, token)))
  {
    DeletedBook(w.reg, w.book, w.phase, e, token);
  }

  lemma FetchKeeps(c: Config, w: World, id: Id)
    requires Inv(c, w)
    ensures Inv(c, w.(book := Fetch(w.book, id)))
  {
    FetchBook(w.reg, w.book, w.phase, id);
  }

  /** The producer of a live lease has no record but the one of the lease's name. */
  lemma OneRecordPerLease(reg: Services, b: Book, id: Id, n: Name)
    requires LeaseInv(reg, b.leases) && IdInv(reg, b) && id in b.leases && n in reg
    ensures reg[n].producerID == id <==> n == b.leases[id].name
  {
    var m := b.leases[id].name;
    assert m in reg && reg[m].producerID == id && reg[m].source != Docker;
    assert id in b.issued && b.issued[id] == m;
  }

  // ----- Sweeping -----

  function Ended(w: World, es: seq<Ending>): World {
    if es == [] then w else EndStep(Ended(w, es[..|es| - 1]), es[|es| - 1])
  }

  lemma {:induction false} EndedKeeps(c: Config, w: World, es: seq<Ending>)
    requires Inv(c, w) && w.phase.Idle?
    ensures Inv(c, Ended(w, es)) && Ended(w, es).phase.Idle?
  {
    if es != [] {
      EndedKeeps(c, w, es[..|es| - 1]);
      EndKeeps(c, Ended(w, es[..|es| - 1]), es[|es| - 1]);
    }
  }

  ghost predicate Distinct(es: seq<Ending>) {
    forall i, j :: 0 <= i < j < |es| ==> es[i].id != es[j].id
  }

  lemma {:induction false} EndedPending(w: World, es: seq<Ending>, i: nat)
    requires i <= |es| && Distinct(es) && w.phase.Idle? && forall e :: e in es ==> e in w.book.pending
    ensures var v := Ended(w, es[..i]);
      && v.phase.Idle? && v.book == w.book.(pending := v.book.pending)
      && forall j :: i <= j < |es| ==> es[j] in v.book.pending
  {
    if i > 0 {
      EndedPending(w, es, i - 1);
      assert es[..i][..i - 1] == es[..i - 1];
    } else {
      assert es[..i] == [];
    }
  }

  /** Exactly the records of the producers named in `es` have become dormant. */
  ghost predicate EndedSoFar(reg0: Services, reg: Services, es: seq<Ending>) {
    && reg.Keys == reg0.Keys
    && forall n :: n in reg0 ==>
         reg[n] == if exists e :: e in es && e.id == reg0[n].producerID then G.Dormant(reg0[n]) else reg0[n]
  }

  /** The producer has no record but the one to be ended. */
  ghost predicate Sole(reg: Services, e: Ending) {
    forall n :: n in reg ==> (reg[n].producerID == e.id <==> n == e.name)
  }

  lemma EndedOne(reg0: Services, done: seq<Ending>, e: Ending, reg: Services)
    requires Sole(reg0, e) && EndedSoFar(reg0, reg, done)
    ensures EndedSoFar(reg0, G.Cleared(reg, e.name, e.id), done + [e])
  {
    var reg' := G.Cleared(reg, e.name, e.id);
    forall n | n in reg0
      ensures reg'[n] == if exists x :: x in done + [e] && x.id == reg0[n].producerID
                         then G.Dormant(reg0[n]) else reg0[n]
    {
      G.StaleRemovalIgnored(reg, e.name, e.id, n);
      assert e in done + [e];
      assert forall x :: x in done + [e] <==> x in done || x == e;
    }
  }

  lemma {:induction false} EndedRecords(w: World, es: seq<Ending>, i: nat)
    requires i <= |es| && Distinct(es) && w.phase.Idle?
    requires forall e :: e in es ==> e in w.book.pending && Sole(w.reg, e)
    ensures EndedSoFar(w.reg, Ended(w, es[..i]).reg, es[..i])
  {
    if i > 0 {
      EndedRecords(w, es, i - 1);
      EndedPending(w, es, i - 1);
      var front := es[..i - 1];
      assert es[..i][..i - 1] == front && front + [es[i - 1]] == es[..i];
      assert es[i - 1] in es;
      EndedOne(w.reg, front, es[i - 1], Ended(w, front).reg);
    } else {
      assert es[..i] == [];
    }
  }

  /** After a sweep and its ends, exactly the records that overdue leases stood for are
      dormant. */
  lemma SweepDoes(c: Config, w: World, at: int, taken: seq<Ending>)
    requires Inv(c, w) && w.phase.Idle? && Distinct(taken)
    requires forall e :: e in taken ==> e.id in L.Overdue(w.book.leases, at) && e.name == w.book.leases[e.id].name
    ensures var v := w.(book := Swept(w.book, at));
      && (forall e :: e in taken ==> e in v.book.pending)
      && Inv(c, Ended(v, taken)) && Ended(v, taken).book.leases == L.Surviving(w.book.leases, at)
      && EndedSoFar(w.reg, Ended(v, taken).reg, taken)
  {
    var v := w.(book := Swept(w.book, at));
    SweptBook(w.reg, w.book, w.phase, at);
    EndedKeeps(c, v, taken);
    EndedPending(v, taken, |taken|);
    forall e | e in taken ensures Sole(w.reg, e) {
      forall n | n in w.reg ensures w.reg[n].producerID == e.id <==> n == e.name {
        OneRecordPerLease(w.reg, w.book, e.id, n);
      }
    }
    EndedRecords(v, taken, |taken|);
    assert taken[..|taken|] == taken;
  }

  // ----- Registration -----

  lemma RegisteredKeeps(c: Config, w: World, q: Request, env: Env)
    requires Inv(c, w)
    ensures Inv(c, Registered(c, w, q, env))
  {
    RunKeeps(c, w, Plan(q, env));
    RegisteredIsRun(c, w, q, env);
  }
}
