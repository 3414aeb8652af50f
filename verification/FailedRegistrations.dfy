/** A registration that fails while others go on: heartbeats, deletions, sweeps, ticks and
    flushes come between any two of its steps. When it gives up, the world is what those
    alone would have made of it, but for a port that could not be written down, which
    stays in the store's memory. */
module FailedRegistrations {
  import opened Types
  import opened Registry
  import opened Admission
  import opened World
  import opened WorldInvariants
  import opened Registration
  import S = Store
  import Hosts

  // ----- What happens beside a registration -----

  /** The steps that take only the lease or the store lock. All other steps need the
      daemon mutex, which the registration holds. */
  predicate Beside(l: Label) { l.Get? || l.Delete? || l.Renew? || l.Sweep? || l.Tick? || l.Flush? }

  /** The run without the registration. */
  function Others(ls: seq<Label>): seq<Label> {
    if ls == [] then []
    else Others(ls[..|ls| - 1]) + if Beside(ls[|ls| - 1]) then [ls[|ls| - 1]] else []
  }

  /** The registration in hand is not finished at any point of the run. */
  predicate InProgress(c: Config, w: World, ls: seq<Label>) {
    !Exec(c, w, ls).phase.Idle? && (ls == [] || InProgress(c, w, ls[..|ls| - 1]))
  }

  /** The registration returns an error before its record is installed: no port, no
      durable port, or a lost claim. */
  predicate GivesUp(c: Config, w: World, l: Label) {
    (l.Exhaust? || l.Persist? || l.Install?) && !w.phase.Idle? && Apply(c, w, l).phase.Idle?
  }

  /** It returns an error, here or for want of a token. */
  predicate Fails(c: Config, w: World, l: Label) { GivesUp(c, w, l) || (l.NoToken? && AwaitsLease(w)) }

  // ----- Where it can fail -----

  /** In every reachable state the installation of the record goes through. */
  lemma InstallNeverRefuses(c: Config, w: World)
    requires Inv(c, w) && w.phase.Fronted?
    ensures InstallStep(w).phase == Installed(w.phase.t)
  {
    assert PhaseInv(w.reg, w.book, w.phase);
  }

  /** Only a registration of a new name can give up, so none that has retired a lease. */
  lemma GivingUpIsNew(c: Config, w: World, l: Label)
    requires Inv(c, w) && GivesUp(c, w, l)
    ensures Early(w.phase) && w.phase.t.name !in w.reg && !Retires(w.reg, w.phase.t)
  {
    if l.Install? {
      InstallNeverRefuses(c, w);
    } else {
      NewName(c, w);
    }
  }

  predicate Early(phase: Phase) { phase.Checked? || phase.Retired? || phase.Listening? }

  /** Before it has a frontend the registration has changed no record, and it keeps its
      ticket. */
  lemma EarlyStep(c: Config, w: World, l: Label)
    requires !w.phase.Idle? && Early(Apply(c, w, l).phase)
    ensures Early(w.phase) && Apply(c, w, l).reg == w.reg && Apply(c, w, l).phase.t == w.phase.t
  {}

  lemma {:induction false} EarlyRun(c: Config, w: World, ls: seq<Label>)
    requires InProgress(c, w, ls) && Early(Exec(c, w, ls).phase)
    ensures Early(w.phase) && Exec(c, w, ls).reg == w.reg && Exec(c, w, ls).phase.t == w.phase.t
  {
    if ls != [] {
      EarlyStep(c, Exec(c, w, ls[..|ls| - 1]), ls[|ls| - 1]);
      EarlyRun(c, w, ls[..|ls| - 1]);
    }
  }

  // ----- Side by side with the run that never had it -----

  /** `v` has the registration in hand and `u` has not; only its ID and the port it
      listens on tell them apart. */
  ghost predicate Shadow(v: World, u: World) {
    && Early(v.phase) && u.phase.Idle? && v.phase.t.name !in v.reg
    && v.clock == u.clock && v.reg == u.reg && v.routes == u.routes
    && v.book == u.book.(issued := v.book.issued, containers := v.book.containers)
    && v.fronts == u.fronts.(bound := v.fronts.bound)
    && if v.phase.Listening? then v.phase.port !in u.fronts.bound && v.fronts.bound == u.fronts.bound + {v.phase.port}
       else v.fronts.bound == u.fronts.bound
  }

  lemma ShadowBeside(c: Config, v: World, u: World, l: Label)
    requires Shadow(v, u) && Beside(l)
    ensures Shadow(Apply(c, v, l), Apply(c, u, l))
  {}

  lemma ShadowStep(c: Config, v: World, u: World, l: Label)
    requires Shadow(v, u) && !Beside(l) && Early(Apply(c, v, l).phase)
    ensures Shadow(Apply(c, v, l), u)
  {}

  lemma {:induction false} ShadowRun(c: Config, w1: World, w: World, ls: seq<Label>)
    requires Shadow(w1, w) && InProgress(c, w1, ls) && Early(Exec(c, w1, ls).phase)
    ensures Shadow(Exec(c, w1, ls), Exec(c, w, Others(ls)))
  {
    if ls != [] {
      var front, l := ls[..|ls| - 1], ls[|ls| - 1];
      EarlyStep(c, Exec(c, w1, front), l);
      ShadowRun(c, w1, w, front);
      if Beside(l) {
        ExecSplit(c, w, Others(front), l);
        ShadowBeside(c, Exec(c, w1, front), Exec(c, w, Others(front)), l);
      } else {
        assert Others(ls) == Others(front);
        ShadowStep(c, Exec(c, w1, front), Exec(c, w, Others(front)), l);
      }
    }
  }

  /** What giving up at this step leaves in a world that never had the registration. */
  function Left(u: World, v: World, l: Label): World {
    if l.Persist? && v.phase.Listening? then WithLeftover(u, v.phase.t.name, v.phase.port) else u
  }

  lemma ShadowEnds(c: Config, v: World, u: World, l: Label)
    requires Shadow(v, u) && GivesUp(c, v, l)
    ensures NoTrace(Left(u, v, l), Apply(c, v, l)) && v.fronts.store == u.fronts.store
  {
    if v.phase.Listening? {
      assert u.fronts.bound + {v.phase.port} - {v.phase.port} == u.fronts.bound;
    }
  }

  /** The failing step leaves nothing: there was no port to bind, or the one that could not
      be written down is in the store's memory from an earlier failure. */
  predicate Traceless(v: World, l: Label) {
    || l.Exhaust?
    || (l.Persist? && v.phase.Listening? && AlreadyLeft(v.fronts.store, v.phase.t.name, v.phase.port))
  }

  lemma LeftIff(c: Config, u: World, v: World, l: Label, v': World)
    requires NoTrace(Left(u, v, l), v') && v.fronts.store == u.fronts.store && Early(v.phase)
    requires l.Exhaust? || (l.Persist? && v.phase.Listening?)
    ensures NoTrace(u, v') <==> Traceless(v, l)
  {
    if l.Persist? {
      LeftoverIff(u.fronts.store, v.phase.t.name, v.phase.port);
    }
  }

  // ----- The theorems -----

  predicate Begins(c: Config, w: World, q: Request, regID: Id, w1: World) {
    w.phase.Idle? && w1 == BeginStep(c, w, q, regID) && w1.phase.Checked?
  }

  lemma Begun(c: Config, w: World, q: Request, regID: Id, w1: World)
    requires Inv(c, w) && Begins(c, w, q, regID, w1)
    ensures Inv(c, w1) && w1.reg == w.reg && w1.phase.t.name == q.name && w1.phase.t.regID == regID
    ensures regID !in w.book.issued && regID !in w.book.containers
    ensures q.name !in w.reg ==> Shadow(w1, w)
  {
    BeginKeeps(c, w, q, regID);
  }

  lemma GivingUp(c: Config, w: World, w1: World, ls: seq<Label>, l: Label)
    requires Inv(c, w1) && w1.reg == w.reg && (w1.phase.Checked? && w1.phase.t.name !in w.reg ==> Shadow(w1, w))
    requires w1.phase.Checked? && InProgress(c, w1, ls) && GivesUp(c, Exec(c, w1, ls), l)
    ensures w1.phase.t.name !in w.reg && (l.Exhaust? || (l.Persist? && Exec(c, w1, ls).phase.Listening?))
    ensures var (u, v) := (Exec(c, w, Others(ls)), Exec(c, w1, ls));
      NoTrace(Left(u, v, l), Apply(c, v, l)) && (NoTrace(u, Apply(c, v, l)) <==> Traceless(v, l))
  {
    RunKeeps(c, w1, ls);
    GivingUpIsNew(c, Exec(c, w1, ls), l);
    EarlyRun(c, w1, ls);
    ShadowRun(c, w1, w, ls);
    ShadowEnds(c, Exec(c, w1, ls), Exec(c, w, Others(ls)), l);
    LeftIff(c, Exec(c, w, Others(ls)), Exec(c, w1, ls), l, Apply(c, Exec(c, w1, ls), l));
  }

  /** However it is interleaved, a registration that gives up was for a new name and
      leaves what the others alone would have left, together with the port that it bound
      and could not write down, if that is why it gave up. */
  lemma GivingUpLeaves(c: Config, w: World, q: Request, regID: Id, w1: World, ls: seq<Label>, l: Label)
    requires Inv(c, w) && Begins(c, w, q, regID, w1) && InProgress(c, w1, ls) && GivesUp(c, Exec(c, w1, ls), l)
    ensures q.name !in w.reg
    ensures var (u, v) := (Exec(c, w, Others(ls)), Exec(c, w1, ls));
      NoTrace(Left(u, v, l), Apply(c, v, l)) && (NoTrace(u, Apply(c, v, l)) <==> Traceless(v, l))
  {
    Begun(c, w, q, regID, w1);
    GivingUp(c, w, w1, ls, l);
  }

  // ----- What becomes of a port left in memory -----

  /** The next write that succeeds, for whatever name, puts it on disk. */
  lemma LeftoverReachesDisk(s: S.State, name: Name, port: int, other: Name, p: int)
    requires S.Sound(s)
    ensures var left := Leftover(s, name, port);
      && name in OnDisk(S.Flushed(left, true)) && OnDisk(S.Flushed(left, true))[name] == port
      && (other != name ==>
            var s' := S.PortSet(left, other, p, true).0; name in OnDisk(s') && OnDisk(s')[name] == port)
  {}

  /** Once a registration is bound to retire a lease, nothing that happens makes it give
      up any more. */
  lemma RetiringNeverFails(c: Config, w: World, q: Request, regID: Id, w1: World, ls: seq<Label>, l: Label)
    requires Inv(c, w) && Begins(c, w, q, regID, w1) && Retires(w.reg, w1.phase.t) && InProgress(c, w1, ls)
    ensures !GivesUp(c, Exec(c, w1, ls), l)
  {
    Begun(c, w, q, regID, w1);
    if GivesUp(c, Exec(c, w1, ls), l) {
      GivingUp(c, w, w1, ls, l);
    }
  }

  lemma BesideKeepsRecords(c: Config, w: World, l: Label)
    requires Beside(l)
    ensures Apply(c, w, l).reg == w.reg
  {}

  lemma {:induction false} OthersKeepRecords(c: Config, w: World, ls: seq<Label>)
    ensures Exec(c, w, Others(ls)).reg == w.reg
  {
    if ls != [] {
      OthersKeepRecords(c, w, ls[..|ls| - 1]);
      if Beside(ls[|ls| - 1]) {
        ExecSplit(c, w, Others(ls[..|ls| - 1]), ls[|ls| - 1]);
        BesideKeepsRecords(c, Exec(c, w, Others(ls[..|ls| - 1])), ls[|ls| - 1]);
      } else {
        assert Others(ls) == Others(ls[..|ls| - 1]);
      }
    }
  }

  lemma KeepsTicketStep(c: Config, w: World, l: Label)
    requires !w.phase.Idle? && !Apply(c, w, l).phase.Idle?
    ensures Apply(c, w, l).phase.t == w.phase.t
  {}

  lemma {:induction false} KeepsTicket(c: Config, w: World, ls: seq<Label>)
    requires InProgress(c, w, ls)
    ensures !w.phase.Idle? && Exec(c, w, ls).phase.t == w.phase.t
  {
    if ls != [] {
      KeepsTicket(c, w, ls[..|ls| - 1]);
      KeepsTicketStep(c, Exec(c, w, ls[..|ls| - 1]), ls[|ls| - 1]);
    }
  }

  /** A new ID is nobody's producer. */
  lemma NewIdIsNoProducer(c: Config, w: World, id: Id, n: Name)
    requires Inv(c, w) && n in w.reg && id !in w.book.issued && id !in w.book.containers
    ensures w.reg[n].producerID != id
  {
    assert IdInv(w.reg, w.book);
  }

  /** The token generator fails: the record stays, and the others would not have put it
      there. */
  lemma TokenFails(c: Config, w: World, w1: World, ls: seq<Label>, n: Name, regID: Id)
    requires Inv(c, w1) && InProgress(c, w1, ls) && AwaitsLease(Exec(c, w1, ls))
    requires w1.phase.Checked? && w1.phase.t.name == n && w1.phase.t.regID == regID
    requires n in w.reg ==> w.reg[n].producerID != regID
    ensures var v' := NoTokenStep(Exec(c, w1, ls));
      && n in v'.reg && Leased(v'.reg[n]) && v'.reg[n].producerID == regID && regID in v'.book.stranded
      && !NoTrace(Exec(c, w, Others(ls)), v')
  {
    RunKeeps(c, w1, ls);
    KeepsTicket(c, w1, ls);
    OthersKeepRecords(c, w, ls);
    assert PhaseInv(Exec(c, w1, ls).reg, Exec(c, w1, ls).book, Exec(c, w1, ls).phase);
  }

  /** Whatever is interleaved with it, a failing registration leaves no trace if and only
      if there was no port to bind, or the port it bound and could not write down was left
      in the store's memory by an earlier failure. A port that could not be written down is
      left in memory and nothing else; if the token generator failed, the record is left
      behind, ready, under its own ID and without a lease. */
  lemma FailureLeavesNoTraceIff(c: Config, w: World, q: Request, regID: Id, w1: World, ls: seq<Label>, l: Label)
    requires Inv(c, w) && Begins(c, w, q, regID, w1) && InProgress(c, w1, ls) && Fails(c, Exec(c, w1, ls), l)
    ensures var (u, v) := (Exec(c, w, Others(ls)), Exec(c, w1, ls));
      var v' := Apply(c, v, l);
      && (NoTrace(u, v') <==> Traceless(v, l))
      && (l.Persist? ==> NoTrace(Left(u, v, l), v'))
      && (l.NoToken? ==>
            q.name in v'.reg && Leased(v'.reg[q.name]) && v'.reg[q.name].producerID == regID
            && regID in v'.book.stranded)
  {
    if l.NoToken? {
      Begun(c, w, q, regID, w1);
      if q.name in w.reg {
        NewIdIsNoProducer(c, w, regID, q.name);
      }
      TokenFails(c, w, w1, ls, q.name, regID);
    } else {
      GivingUpLeaves(c, w, q, regID, w1, ls, l);
    }
  }

  // ----- A run in which it surfaces -----

  const EXAMPLE_NAME: Name := "a"

  function Example(c: Config): Request {
    Request(EXAMPLE_NAME, "tcp", "", Backend("h", 80), true, c.minPort, 0, Process, "", "", "")
  }

  lemma ExampleIsAdmitted(c: Config)
    requires ValidConfig(c)
    ensures Admit(c, map[], Example(c), "r") == Ok(TicketOf(c, Example(c), "r", TCP, ""))
  {
    assert ValidName("a");
    assert Hosts.TrimSpace("h") == "h" by {
      assert !Hosts.Space('h');
    }
  }

  /** A daemon without a state file refuses a registration because it cannot write, and
      with the next write the port of the refused service is on disk. */
  lemma LeftoverRun(c: Config, clock: int) returns (ls: seq<Label>)
    requires ValidConfig(c)
    ensures var w0 := Fresh(clock, map[], {}, S.Model(S.VERSION, map[]), S.Missing);
      var w := Exec(c, w0, ls);
      && w.phase.Idle? && w.reg == map[] && w.fronts.runtimes == map[] && w.fronts.bound == {}
      && EXAMPLE_NAME !in OnDisk(w0.fronts.store)
      && EXAMPLE_NAME in OnDisk(w.fronts.store) && OnDisk(w.fronts.store)[EXAMPLE_NAME] == c.minPort
  {
    var w0 := Fresh(clock, map[], {}, S.Model(S.VERSION, map[]), S.Missing);
    var q, env := Example(c), Env("r", Some(0), false, None);
    var t := TicketOf(c, q, "r", TCP, "");
    ExampleIsAdmitted(c);
    assert PortsFor(c, w0, t)[0] == c.minPort;
    RegisteredDoes(c, w0, q, env, t);
    RegisteredIsRun(c, w0, q, env);
    ls := Plan(q, env) + [Flush(true)];
    ExecSplit(c, w0, Plan(q, env), Flush(true));
    FlushStep(c, Registered(c, w0, q, env), true);
  }
}
