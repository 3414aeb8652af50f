/** One registration from start to finish with nothing in between: the phases of the
    transition system strung together, and what the caller is told. */
module Registration {
  import opened Types
  import opened Registry
  import opened Admission
  import opened World
  import opened WorldInvariants
  import L = Leases
  import S = Store
  import F = Frontends
  import R = Router

  /** What the surroundings contribute: the new ID, the candidate port that turns out
      to be bindable (if a runtime is needed and there is one), whether the state file
      can be written, and the token if the generator delivers one. */
  datatype Env = Env(regID: Id, pick: Option<nat>, writeOk: bool, token: Option<string>)

  datatype Reply = Reply(id: Id, frontend: Frontend, ttlSeconds: int)

  function Plan(q: Request, env: Env): seq<Label> {
    [Begin(q, env.regID), Retire, Reuse, if env.pick.Some? then Bind(env.pick.value) else Exhaust,
     Persist(env.writeOk), Web, Install, Route, Done, if env.token.Some? then Grant(env.token.value) else NoToken]
  }

  function Started(c: Config, w: World, q: Request, env: Env): World {
    RetireStep(BeginStep(c, w, q, env.regID))
  }

  function Fronting(c: Config, w: World, env: Env): World {
    var v := ReuseStep(w);
    var v := if env.pick.Some? then BindStep(c, v, env.pick.value) else ExhaustStep(v);
    WebStep(c, PersistStep(v, env.writeOk))
  }

  function Finished(w: World, env: Env): World {
    var v := DoneStep(RouteStep(InstallStep(w)));
    if env.token.Some? then GrantStep(v, env.token.value) else NoTokenStep(v)
  }

  function Registered(c: Config, w: World, q: Request, env: Env): World {
    Finished(Fronting(c, Started(c, w, q, env), env), env)
  }

  predicate CreatesRuntime(w: World, t: Ticket) { t.kind == TCP && t.name !in w.fronts.runtimes }

  function PortsFor(c: Config, w: World, t: Ticket): seq<int> {
    F.Candidates(c, t.name, S.Remembered(w.fronts.store, t.name), t.preferred)
  }

  /** The environment fits the state: the ID is new and the port picked can be bound. */
  predicate Fits(c: Config, w: World, q: Request, env: Env) {
    && w.phase.Idle? && FreshID(w.book, q, env.regID)
    && var r := Admit(c, w.reg, q, env.regID);
       r.Ok? && CreatesRuntime(w, r.value) && env.pick.Some? ==>
         var cands := PortsFor(c, w, r.value);
         env.pick.value < |cands| && F.Bindable(w.fronts.bound, cands[env.pick.value])
  }

  /** The frontend of an admitted registration, or why there is none. */
  function FrontendFor(c: Config, w: World, t: Ticket, env: Env): Result<Frontend, ErrorCode> {
    if t.kind == HTTP then Ok(R.FrontendURL(c, t.hostname))
    else if t.name in w.fronts.runtimes then Ok(Port(w.fronts.runtimes[t.name]))
    else if env.pick.None? || env.pick.value >= |PortsFor(c, w, t)| then Err(PortExhausted)
    else
      var port := PortsFor(c, w, t)[env.pick.value];
      if S.PortSet(w.fronts.store, t.name, port, env.writeOk).1 then Ok(Port(port)) else Err(Internal)
  }

  function Outcome(c: Config, w: World, q: Request, env: Env): Result<Reply, ErrorCode> {
    match Admit(c, w.reg, q, env.regID)
    case Err(e) => Err(e)
    case Ok(t) =>
      match FrontendFor(c, w, t, env)
      case Err(e) => Err(e)
      case Ok(f) =>
        if t.source == Docker then Ok(Reply(t.regID, f, 0))
        else if env.token.None? then Err(Internal)
        else Ok(Reply(t.regID, f, t.ttl / SECOND))
  }

  /** The port picked is the first candidate that the host lets the daemon bind. */
  ghost predicate FirstPick(c: Config, w: World, t: Ticket, env: Env, taken: (nat, int) -> bool, from: nat) {
    CreatesRuntime(w, t) ==>
      F.FirstBindable(PortsFor(c, w, t), if env.pick.Some? then env.pick.value else |PortsFor(c, w, t)|,
                      w.fronts.bound, taken, from)
  }

  /** A new TCP service gets the port remembered for its name if that can be bound, and
      otherwise the port that the request prefers if that can be bound. */
  lemma SuggestedPortAnswered(c: Config, w: World, q: Request, env: Env, t: Ticket, taken: (nat, int) -> bool,
                              from: nat, port: int)
    requires Admit(c, w.reg, q, env.regID) == Ok(t) && CreatesRuntime(w, t) && FirstPick(c, w, t, env, taken, from)
    requires port != 0 && F.Bindable(w.fronts.bound, port)
    requires var remembered := S.Remembered(w.fronts.store, q.name);
      || (port == remembered && !taken(from, port))
      || (port == q.preferred && !taken(from + if remembered != 0 then 1 else 0, port)
          && (remembered == 0 || !F.Bindable(w.fronts.bound, remembered) || taken(from, remembered)))
    ensures FrontendFor(c, w, t, env) ==
      if S.PortSet(w.fronts.store, q.name, port, env.writeOk).1 then Ok(Port(port)) else Err(Internal)
  {
    hide Admit, F.Candidates, F.Bindable, S.PortSet;
    AdmittedAsks(c, w.reg, q, env.regID, t);
    var remembered := S.Remembered(w.fronts.store, q.name);
    var k := if env.pick.Some? then env.pick.value else |PortsFor(c, w, t)|;
    F.SuggestedFirst(c, q.name, remembered, q.preferred);
    if !(port == remembered && !taken(from, port)) {
      F.PreferredPortTaken(c, q.name, remembered, q.preferred, w.fronts.bound, taken, from, k);
    } else {
      FirstIsZero(PortsFor(c, w, t), k, w.fronts.bound, taken, from);
    }
  }

  lemma FirstIsZero(cands: seq<int>, k: nat, bound: set<int>, taken: (nat, int) -> bool, from: nat)
    requires F.FirstBindable(cands, k, bound, taken, from)
    requires cands != [] && F.Bindable(bound, cands[0]) && !taken(from, cands[0])
    ensures k == 0
  {
  }

  /** What the caller is told, case by case. */
  lemma AnswerCodes(c: Config, w: World, q: Request, env: Env)
    ensures var a := Admit(c, w.reg, q, env.regID);
      var r := Outcome(c, w, q, env);
      && (a.Err? ==> r == Err(a.error))
      && (a.Ok? && CreatesRuntime(w, a.value) && env.pick.None? ==> r == Err(PortExhausted))
      && (a.Ok? && FrontendFor(c, w, a.value, env).Ok? && q.source != Docker && env.token.None? ==> r == Err(Internal))
      && (a.Ok? && CreatesRuntime(w, a.value) && env.pick.Some? && env.pick.value < |PortsFor(c, w, a.value)| &&
          !env.writeOk && S.Remembered(w.fronts.store, q.name) != PortsFor(c, w, a.value)[env.pick.value] ==>
            r == Err(Internal))
      && (a.Ok? && !CreatesRuntime(w, a.value) && (q.source == Docker || env.token.Some?) ==> r.Ok?)
  {
    hide Admit, F.Candidates;
    var a := Admit(c, w.reg, q, env.regID);
    if a.Ok? {
      AdmittedAsks(c, w.reg, q, env.regID, a.value);
    }
  }

  // ----- It is a run -----

  lemma StartedIsRun(c: Config, w: World, q: Request, env: Env)
    ensures Started(c, w, q, env) == Exec(c, w, Plan(q, env)[..2])
  {
    ExecSplit(c, w, [], Begin(q, env.regID));
    ExecSplit(c, w, [Begin(q, env.regID)], Retire);
    assert [] + [Begin(q, env.regID)] == [Begin(q, env.regID)];
    assert Plan(q, env)[..2] == [Begin(q, env.regID)] + [Retire];
  }

  lemma FrontingIsRun(c: Config, w: World, q: Request, env: Env)
    ensures Fronting(c, Started(c, w, q, env), env) == Exec(c, w, Plan(q, env)[..6])
  {
    StartedIsRun(c, w, q, env);
    var p := Plan(q, env);
    ExecSplit(c, w, p[..2], p[2]);
    ExecSplit(c, w, p[..3], p[3]);
    ExecSplit(c, w, p[..4], p[4]);
    ExecSplit(c, w, p[..5], p[5]);
    assert p[..2] + [p[2]] == p[..3] && p[..3] + [p[3]] == p[..4];
    assert p[..4] + [p[4]] == p[..5] && p[..5] + [p[5]] == p[..6];
  }

  lemma InstallingIsRun(c: Config, w: World, q: Request, env: Env)
    ensures RouteStep(InstallStep(Fronting(c, Started(c, w, q, env), env))) == Exec(c, w, Plan(q, env)[..8])
  {
    FrontingIsRun(c, w, q, env);
    var p := Plan(q, env);
    ExecSplit(c, w, p[..6], p[6]);
    ExecSplit(c, w, p[..7], p[7]);
    assert p[..6] + [p[6]] == p[..7] && p[..7] + [p[7]] == p[..8];
  }

  /** A whole registration is the run that executes its plan without interruption. */
  lemma RegisteredIsRun(c: Config, w: World, q: Request, env: Env)
    ensures Registered(c, w, q, env) == Exec(c, w, Plan(q, env))
  {
    InstallingIsRun(c, w, q, env);
    var p := Plan(q, env);
    ExecSplit(c, w, p[..8], p[8]);
    ExecSplit(c, w, p[..9], p[9]);
    assert p[..8] + [p[8]] == p[..9] && p[..9] + [p[9]] == p;
  }

  // ----- What it does, outcome by outcome -----

  /** A registration that would retire a lease always gets its frontend: the name
      already has a record, hence a runtime or a URL. */
  lemma ExistingNameIsFronted(c: Config, w: World, t: Ticket, env: Env)
    requires RuntimeInv(w.reg, w.fronts.runtimes, Idle) && Compatible(w.reg, t) && Retires(w.reg, t)
    ensures !CreatesRuntime(w, t) && FrontendFor(c, w, t, env).Ok?
  {}

  /** The store remembers the attempt even if it could not be written. */
  function Attempted(c: Config, w: World, t: Ticket, env: Env): F.Fronts {
    if CreatesRuntime(w, t) && env.pick.Some? && env.pick.value < |PortsFor(c, w, t)| then
      var port := PortsFor(c, w, t)[env.pick.value];
      var (store, ok) := S.PortSet(w.fronts.store, t.name, port, env.writeOk);
      if ok then F.Fronts(w.fronts.bound + {port}, w.fronts.runtimes[t.name := port], store)
      else w.fronts.(store := store)
    else w.fronts
  }

  lemma FrontingDoes(c: Config, w: World, env: Env)
    requires w.phase.Retired?
    requires CreatesRuntime(w, w.phase.t) && env.pick.Some? ==>
      && env.pick.value < |PortsFor(c, w, w.phase.t)|
      && F.Bindable(w.fronts.bound, PortsFor(c, w, w.phase.t)[env.pick.value])
    ensures var t := w.phase.t;
      Fronting(c, w, env) == w.(fronts := Attempted(c, w, t, env),
                                phase := match FrontendFor(c, w, t, env)
                                         case Ok(f) => Fronted(t, f)
                                         case Err(_) => Idle)
  {
    var t := w.phase.t;
    if CreatesRuntime(w, t) && env.pick.Some? {
      var port := PortsFor(c, w, t)[env.pick.value];
      assert w.fronts.bound + {port} - {port} == w.fronts.bound;
    }
  }

  function RetiredBook(w: World, t: Ticket): Book {
    var b := Issued(w.book, t);
    if Retires(w.reg, t) then Over(b, w.reg[t.name].producerID) else b
  }

  lemma StartedDoes(c: Config, w: World, q: Request, env: Env, t: Ticket)
    requires w.phase.Idle? && FreshID(w.book, q, env.regID) && Admit(c, w.reg, q, env.regID) == Ok(t)
    ensures Started(c, w, q, env) == w.(phase := Retired(t), book := RetiredBook(w, t))
    ensures Claimable(w.reg, t.name, t.ownerKey) && t.name == q.name && t.source == q.source && t.regID == env.regID
    ensures t.producerID == if q.source == Docker then q.containerID else env.regID
    ensures Compatible(w.reg, t)
  {}

  function SettledBook(w: World, b: Book, t: Ticket, env: Env): Book {
    if t.source == Docker then b
    else if env.token.None? then Stranding(b, t.regID)
    else Granted(b, L.NewEntry(t.regID, t.name, t.ownerKey, env.token.value, t.ttl, w.clock))
  }

  lemma FinishedDoes(w: World, env: Env)
    requires w.phase.Fronted? && Claimable(w.reg, w.phase.t.name, w.phase.t.ownerKey)
    ensures var (t, f) := (w.phase.t, w.phase.frontend);
      Finished(w, env) == World(w.clock, w.reg[t.name := RecordOf(t, f)], SettledBook(w, w.book, t, env), w.fronts,
                                if t.kind == HTTP then R.Routed(w.routes, t.hostname, t.name) else w.routes, Idle)
  {}

  /** The state after an admitted registration that gets no frontend. */
  lemma UnfrontedDoes(c: Config, w: World, env: Env)
    requires w.phase.Idle?
    ensures Finished(w, env) == w
  {}

  /** The state after an admitted registration: everything its frontend needed, and if
      it got one, the record, the route and the lease. */
  lemma RegisteredDoes(c: Config, w: World, q: Request, env: Env, t: Ticket)
    requires Fits(c, w, q, env) && Admit(c, w.reg, q, env.regID) == Ok(t)
    ensures Registered(c, w, q, env) ==
      match FrontendFor(c, w, t, env)
      case Err(_) => w.(book := RetiredBook(w, t), fronts := Attempted(c, w, t, env))
      case Ok(f) =>
        World(w.clock, w.reg[t.name := RecordOf(t, f)], SettledBook(w, RetiredBook(w, t), t, env),
              Attempted(c, w, t, env),
              if t.kind == HTTP then R.Routed(w.routes, t.hostname, t.name) else w.routes, Idle)
  {
    StartedDoes(c, w, q, env, t);
    var v := w.(phase := Retired(t), book := RetiredBook(w, t));
    FrontingDoes(c, v, env);
    var u := Fronting(c, v, env);
    assert Registered(c, w, q, env) == Finished(u, env);
    if u.phase.Fronted? {
      FinishedDoes(u, env);
    } else {
      UnfrontedDoes(c, u, env);
    }
  }

  /** The worlds differ at most in the IDs that were issued. */
  predicate NoTrace(w: World, w': World) {
    && w'.clock == w.clock && w'.reg == w.reg && w'.routes == w.routes && w'.fronts == w.fronts
    && w'.book.fetched == w.book.fetched && w'.book.granted == w.book.granted
    && w'.book.leases == w.book.leases && w'.book.pending == w.book.pending
    && w'.book.ended == w.book.ended && w'.book.stranded == w.book.stranded
  }

  /** What a port that could not be written down leaves in the store: the assignment is in
      memory, in place of any earlier one, waiting for the next write. */
  function Leftover(s: S.State, name: Name, port: int): S.State {
    s.(mem := s.mem.(ports := s.mem.ports[name := port]), dirty := true)
  }

  function WithLeftover(w: World, name: Name, port: int): World {
    w.(fronts := w.fronts.(store := Leftover(w.fronts.store, name, port)))
  }

  /** The same attempt has failed before and nothing was written since. */
  predicate AlreadyLeft(s: S.State, name: Name, port: int) {
    s.dirty && name in s.mem.ports && s.mem.ports[name] == port
  }

  lemma LeftoverIff(s: S.State, name: Name, port: int)
    ensures Leftover(s, name, port) == s <==> AlreadyLeft(s, name, port)
  {
    if AlreadyLeft(s, name, port) {
      assert s.mem.ports[name := port] == s.mem.ports;
    }
  }

  /** The port that the registration binds and cannot write down, if that is how it fails. */
  function Unwritten(c: Config, w: World, t: Ticket, env: Env): Option<int> {
    if CreatesRuntime(w, t) && env.pick.Some? && env.pick.value < |PortsFor(c, w, t)| then
      var port := PortsFor(c, w, t)[env.pick.value];
      if S.PortSet(w.fronts.store, t.name, port, env.writeOk).1 then None else Some(port)
    else None
  }

  lemma UnfrontedLeaves(c: Config, w: World, q: Request, env: Env, t: Ticket)
    requires RuntimeInv(w.reg, w.fronts.runtimes, Idle) && Fits(c, w, q, env)
    requires Admit(c, w.reg, q, env.regID) == Ok(t) && FrontendFor(c, w, t, env).Err?
    ensures var w' := Registered(c, w, q, env);
      match Unwritten(c, w, t, env)
      case None => NoTrace(w, w')
      case Some(port) => NoTrace(WithLeftover(w, t.name, port), w')
  {
    RegisteredDoes(c, w, q, env, t);
    StartedDoes(c, w, q, env, t);
    if Retires(w.reg, t) {
      ExistingNameIsFronted(c, w, t, env);
    }
  }

  lemma TokenFailureLeavesRecord(c: Config, w: World, q: Request, env: Env, t: Ticket)
    requires Fits(c, w, q, env) && env.token.None? && q.source != Docker && env.regID !in w.book.stranded
    requires Admit(c, w.reg, q, env.regID) == Ok(t) && FrontendFor(c, w, t, env).Ok?
    ensures var w' := Registered(c, w, q, env);
      && !NoTrace(w, w') && q.name in w'.reg && Leased(w'.reg[q.name])
      && w'.reg[q.name].producerID in w'.book.stranded
  {
    RegisteredDoes(c, w, q, env, t);
    StartedDoes(c, w, q, env, t);
    assert env.regID in Registered(c, w, q, env).book.stranded;
  }

  /** Admitted and given a frontend, so that only the token was missing. */
  predicate OnlyTokenMissing(c: Config, w: World, q: Request, env: Env) {
    var r := Admit(c, w.reg, q, env.regID);
    r.Ok? && FrontendFor(c, w, r.value, env).Ok?
  }

  /** Admitted, but the port it bound could not be written down, and the store does not
      hold that very assignment unwritten already. */
  predicate LeavesPort(c: Config, w: World, q: Request, env: Env) {
    var r := Admit(c, w.reg, q, env.regID);
    r.Ok? && Unwritten(c, w, r.value, env).Some? &&
    !AlreadyLeft(w.fronts.store, q.name, Unwritten(c, w, r.value, env).value)
  }

  lemma UnfrontedIff(c: Config, w: World, q: Request, env: Env, t: Ticket)
    requires RuntimeInv(w.reg, w.fronts.runtimes, Idle) && Fits(c, w, q, env)
    requires Admit(c, w.reg, q, env.regID) == Ok(t) && FrontendFor(c, w, t, env).Err?
    ensures NoTrace(w, Registered(c, w, q, env)) <==> !LeavesPort(c, w, q, env)
    ensures LeavesPort(c, w, q, env) ==>
      NoTrace(WithLeftover(w, q.name, Unwritten(c, w, t, env).value), Registered(c, w, q, env))
  {
    hide Admit, Registered, Unwritten, FrontendFor, Fits, RuntimeInv;
    UnfrontedLeaves(c, w, q, env, t);
    AdmittedAsks(c, w.reg, q, env.regID, t);
    if Unwritten(c, w, t, env).Some? {
      LeftoverIff(w.fronts.store, q.name, Unwritten(c, w, t, env).value);
    }
  }

  /** A call that returns an error leaves no trace, store included, if and only if neither
      the token generator failed nor a new port could not be written down. In the first
      case the new record is left behind, ready and without a lease; in the second, the
      assignment is left in the store's memory and nothing else. */
  lemma FailureLeavesNoTrace(c: Config, w: World, q: Request, env: Env)
    requires Inv(c, w) && Fits(c, w, q, env) && Outcome(c, w, q, env).Err?
    ensures NoTrace(w, Registered(c, w, q, env)) <==> !OnlyTokenMissing(c, w, q, env) && !LeavesPort(c, w, q, env)
    ensures LeavesPort(c, w, q, env) ==>
      var port := Unwritten(c, w, Admit(c, w.reg, q, env.regID).value, env).value;
      NoTrace(WithLeftover(w, q.name, port), Registered(c, w, q, env))
    ensures OnlyTokenMissing(c, w, q, env) ==>
      var w' := Registered(c, w, q, env);
      && env.token.None? && q.source != Docker && q.name in w'.reg && Leased(w'.reg[q.name])
      && w'.reg[q.name].producerID in w'.book.stranded
  {
    var r := Admit(c, w.reg, q, env.regID);
    if r.Ok? {
      StartedDoes(c, w, q, env, r.value);
      if FrontendFor(c, w, r.value, env).Err? {
        UnfrontedIff(c, w, q, env, r.value);
      } else {
        FreshNotStranded(c, w, env.regID);
        TokenFailureLeavesRecord(c, w, q, env, r.value);
      }
    } else {
      assert Registered(c, w, q, env) == w;
    }
  }

  lemma FreshNotStranded(c: Config, w: World, id: Id)
    requires Inv(c, w) && id !in w.book.issued
    ensures id !in w.book.stranded && id !in w.book.leases && id !in w.book.granted
  {
    assert id !in w.book.granted;
  }

  // ----- After an expiry -----

  lemma SameIdentityIsCompatible(w: World, t: Ticket)
    requires RouteInv(w.reg, w.routes, Idle) && t.name in w.reg
    requires w.reg[t.name].kind == t.kind && w.reg[t.name].hostname == t.hostname
    requires t.kind == HTTP ==> t.hostname != ""
    ensures Compatible(w.reg, t)
  {
    assert HostsUnique(w.reg);
    forall m | m in w.reg && m != t.name ensures t.kind == HTTP ==> w.reg[m].hostname != t.hostname {
      assert w.reg[m].kind == TCP ==> w.reg[m].hostname == "";
    }
  }

  /** Admission asks the registry only about compatibility and ownership. */
  lemma AdmittedAgain(c: Config, before: Services, now: Services, q: Request, first: Ticket, regID: Id, t: Ticket)
    requires Admit(c, before, q, first.regID) == Ok(first) && t == TicketOf(c, q, regID, first.kind, first.hostname)
    requires Compatible(now, t) && Claimable(now, q.name, t.ownerKey)
    ensures Admit(c, now, q, regID) == Ok(t)
  {}

  lemma AdmittedHost(c: Config, services: Services, q: Request, regID: Id, t: Ticket)
    requires Admit(c, services, q, regID) == Ok(t)
    ensures t.kind == HTTP ==> t.hostname != ""
  {}

  /** The frontend of an existing service is the one it has. */
  lemma ExistingFrontend(c: Config, w: World, t: Ticket, env: Env)
    requires RuntimeInv(w.reg, w.fronts.runtimes, Idle) && UrlInv(c, w.reg, Idle)
    requires t.name in w.reg && w.reg[t.name].kind == t.kind && w.reg[t.name].hostname == t.hostname
    ensures FrontendFor(c, w, t, env) == Ok(w.reg[t.name].frontend)
  {}

  lemma RefusedUnlessClaimable(c: Config, services: Services, q: Request, regID: Id)
    requires !Claimable(services, q.name, OwnerKeyOf(q, regID))
    ensures Admit(c, services, q, regID).Err?
  {}

  /** A request that was admitted once, for a name that still has the kind and hostname
      it asked for, is admitted again if and only if its owner may claim the name. The
      answer then carries the new ID and the frontend that the name has. */
  lemma RequestRepeated(c: Config, w: World, q: Request, env: Env, first: Ticket, before: Services)
    requires RouteInv(w.reg, w.routes, Idle) && RuntimeInv(w.reg, w.fronts.runtimes, Idle) && UrlInv(c, w.reg, Idle)
    requires Admit(c, before, q, first.regID) == Ok(first) && env.token.Some?
    requires q.name in w.reg && w.reg[q.name].kind == first.kind && w.reg[q.name].hostname == first.hostname
    ensures var r := Outcome(c, w, q, env);
      && (r.Ok? <==> Claimable(w.reg, q.name, OwnerKeyOf(q, env.regID)))
      && (r.Ok? ==> r.value.id == env.regID && r.value.frontend == w.reg[q.name].frontend)
  {
    hide Admit, Claimable, Compatible, FrontendFor, RouteInv, RuntimeInv, UrlInv, OwnerKeyOf, EffectiveTTL;
    if Claimable(w.reg, q.name, OwnerKeyOf(q, env.regID)) {
      var t := TicketOf(c, q, env.regID, first.kind, first.hostname);
      AdmittedHost(c, before, q, first.regID, first);
      SameIdentityIsCompatible(w, t);
      AdmittedAgain(c, before, w.reg, q, first, env.regID, t);
      ExistingFrontend(c, w, t, env);
    } else {
      RefusedUnlessClaimable(c, w.reg, q, env.regID);
    }
  }

  /** A sweep that takes an expired lease and then ends its publication. */
  function SweptAndEnded(w: World, id: Id, at: int): World
    requires id in w.book.leases
  {
    EndStep(w.(book := Swept(w.book, at)), Ending(w.book.leases[id].name, id))
  }

  lemma SweptAndEndedDoes(c: Config, w: World, id: Id, at: int)
    requires Inv(c, w) && w.phase.Idle? && id in w.book.leases && L.Elapsed(w.book.leases[id], at)
    ensures var n := w.book.leases[id].name;
      var w' := SweptAndEnded(w, id, at);
      && Inv(c, w') && w'.phase.Idle? && n in w.reg
      && w'.reg == w.reg[n := Dormant(w.reg[n])] && w'.book.issued == w.book.issued
      && w'.book.containers == w.book.containers && w'.fronts == w.fronts
  {
    var e := Ending(w.book.leases[id].name, id);
    assert id in L.Overdue(w.book.leases, at);
    assert e in Swept(w.book, at).pending;
    SweptBook(w.reg, w.book, w.phase, at);
    EndKeeps(c, w.(book := Swept(w.book, at)), e);
  }

  /** The client's 404 after a swept lease is recoverable: its re-registration succeeds
      under the new ID with the old frontend. */
  lemma SweepThenRecover(c: Config, w: World, id: Id, at: int, q: Request, env: Env, first: Ticket, before: Services)
    requires Inv(c, w) && w.phase.Idle? && id in w.book.leases && L.Elapsed(w.book.leases[id], at)
    requires Admit(c, before, q, first.regID) == Ok(first) && w.book.leases[id].name == q.name
    requires q.name in w.reg ==> w.reg[q.name].kind == first.kind && w.reg[q.name].hostname == first.hostname
    requires env.token.Some?
    ensures q.name in w.reg
    ensures Outcome(c, SweptAndEnded(w, id, at), q, env).Ok?
    ensures Outcome(c, SweptAndEnded(w, id, at), q, env).value.id == env.regID
    ensures Outcome(c, SweptAndEnded(w, id, at), q, env).value.frontend == w.reg[q.name].frontend
  {
    SweptAndEndedDoes(c, w, id, at);
    RequestRepeated(c, SweptAndEnded(w, id, at), q, env, first, before);
  }
}
