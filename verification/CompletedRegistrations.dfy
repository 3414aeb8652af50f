/** A registration that succeeds while others go on, from its checks to the lease or, for a
    container, to the answer. */
module CompletedRegistrations {
  import opened Types
  import opened Registry
  import opened Admission
  import opened World
  import opened WorldInvariants
  import opened Registration
  import opened FailedRegistrations
  import T = Theorems
  import L = Leases

  /** The registration begun at `w` is in hand along `ls` and finished by `l`, which adds
      its lease or, for a container, answers; `v` is the world after that. */
  predicate Completes(c: Config, w: World, q: Request, regID: Id, w1: World, ls: seq<Label>, l: Label, v: World) {
    && Begins(c, w, q, regID, w1) && InProgress(c, w1, ls)
    && (l.Grant? || l.Done?) && v == Apply(c, Exec(c, w1, ls), l) && v.phase.Idle?
  }

  /** The lease that is granted at `clock`. */
  function LeaseOf(c: Config, q: Request, regID: Id, token: string, clock: int): L.Entry {
    L.NewEntry(regID, q.name, OwnerKeyOf(q, regID), token, EffectiveTTL(c, q), clock)
  }

  lemma LastStep(c: Config, u: World, l: Label)
    requires Inv(c, u) && !u.phase.Idle? && (l.Grant? || l.Done?) && Apply(c, u, l).phase.Idle?
    ensures var (t, v) := (u.phase.t, Apply(c, u, l));
      && t.name in v.reg && v.reg[t.name] == RecordOf(t, v.reg[t.name].frontend)
      && (l.Grant? <==> t.source != Docker) && v.clock == u.clock
      && v.book.leases == if l.Grant? then
           u.book.leases[t.regID := L.NewEntry(t.regID, t.name, t.ownerKey, l.token, t.ttl, v.clock)]
         else u.book.leases
  {
    assert PhaseInv(u.reg, u.book, u.phase);
  }

  lemma BegunTicket(c: Config, w: World, q: Request, regID: Id, w1: World)
    requires Begins(c, w, q, regID, w1)
    ensures Admit(c, w.reg, q, regID) == Ok(w1.phase.t)
  {}

  /** However it was interleaved: the record is that of the ticket and, for leased sources,
      the lease lasts one TTL from the moment it was added. */
  lemma CompletedDoes(c: Config, w: World, q: Request, regID: Id, w1: World, ls: seq<Label>, l: Label, v: World)
    requires Inv(c, w) && Completes(c, w, q, regID, w1, ls, l, v)
    ensures Inv(c, v) && Admit(c, w.reg, q, regID) == Ok(w1.phase.t)
    ensures q.name in v.reg && v.reg[q.name] == RecordOf(w1.phase.t, v.reg[q.name].frontend)
    ensures l.Grant? <==> q.source != Docker
    ensures l.Grant? ==> regID in v.book.leases && v.book.leases[regID] == LeaseOf(c, q, regID, l.token, v.clock)
  {
    hide Inv, Admit, BeginStep, Exec, Apply;
    Begun(c, w, q, regID, w1);
    BegunTicket(c, w, q, regID, w1);
    AdmittedAsks(c, w.reg, q, regID, w1.phase.t);
    KeepsTicket(c, w1, ls);
    RunKeeps(c, w1, ls);
    LastStep(c, Exec(c, w1, ls), l);
    StepKeeps(c, Exec(c, w1, ls), l);
  }

  /** While the registration is in hand the daemon does not restart. */
  lemma {:induction false} InProgressNeverRestarts(c: Config, w: World, ls: seq<Label>)
    requires InProgress(c, w, ls)
    ensures T.NeverRestarts(c, w, ls)
  {
    if ls != [] {
      InProgressNeverRestarts(c, w, ls[..|ls| - 1]);
    }
  }

  // ----- The uninterrupted call is one of these -----

  lemma {:induction false} InProgressBack(c: Config, w: World, ls: seq<Label>)
    requires (forall i :: 0 <= i < |ls| ==> !ls[i].Begin? && !ls[i].Restart?) && !Exec(c, w, ls).phase.Idle?
    ensures InProgress(c, w, ls)
  {
    if ls != [] {
      T.PhaseFrame(c, Exec(c, w, ls[..|ls| - 1]), ls[|ls| - 1]);
      InProgressBack(c, w, ls[..|ls| - 1]);
    }
  }

  /** The steps of the plan between the checks and the lease. */
  function Middle(q: Request, env: Env): seq<Label> { Plan(q, env)[1..8] }

  lemma MiddleIsRun(c: Config, w: World, q: Request, env: Env)
    ensures Exec(c, BeginStep(c, w, q, env.regID), Middle(q, env)) ==
      RouteStep(InstallStep(Fronting(c, Started(c, w, q, env), env)))
  {
    hide Fronting, Started, BeginStep, InstallStep, RouteStep;
    InstallingIsRun(c, w, q, env);
    assert Plan(q, env)[..8] == [Begin(q, env.regID)] + Middle(q, env);
    ExecConcat(c, w, [Begin(q, env.regID)], Middle(q, env));
    assert [] + [Begin(q, env.regID)] == [Begin(q, env.regID)];
    ExecSplit(c, w, [], Begin(q, env.regID));
  }

  lemma MiddleEndsRouted(c: Config, w: World, q: Request, env: Env, t: Ticket)
    requires Fits(c, w, q, env) && Admit(c, w.reg, q, env.regID) == Ok(t) && FrontendFor(c, w, t, env).Ok?
    ensures var u := RouteStep(InstallStep(Fronting(c, Started(c, w, q, env), env)));
      u.phase == Routed(t) && Registered(c, w, q, env) ==
        if t.source == Docker then DoneStep(u)
        else if env.token.Some? then GrantStep(u, env.token.value) else NoTokenStep(u)
    ensures t.source == q.source
  {
    StartedDoes(c, w, q, env, t);
    FrontingDoes(c, Started(c, w, q, env), env);
  }

  lemma LastSteps(c: Config, w: World, token: string)
    ensures Apply(c, w, Done) == DoneStep(w) && Apply(c, w, Grant(token)) == GrantStep(w, token)
  {}

  lemma OkMeans(c: Config, w: World, q: Request, env: Env, t: Ticket)
    requires Fits(c, w, q, env) && Outcome(c, w, q, env).Ok? && Admit(c, w.reg, q, env.regID) == Ok(t)
    ensures FrontendFor(c, w, t, env).Ok? && (t.source != Docker ==> env.token.Some?)
    ensures Begins(c, w, q, env.regID, BeginStep(c, w, q, env.regID))
  {}

  lemma OkIsAdmitted(c: Config, w: World, q: Request, env: Env) returns (t: Ticket)
    requires Outcome(c, w, q, env).Ok?
    ensures Admit(c, w.reg, q, env.regID) == Ok(t)
  {
    t := Admit(c, w.reg, q, env.regID).value;
  }

  lemma MiddleIsQuiet(q: Request, env: Env)
    ensures forall i :: 0 <= i < |Middle(q, env)| ==> !Middle(q, env)[i].Begin? && !Middle(q, env)[i].Restart?
  {}

  lemma RoutedEnds(u: World, token: string)
    requires u.phase.Routed?
    ensures u.phase.t.source == Docker ==> DoneStep(u).phase.Idle?
    ensures u.phase.t.source != Docker ==> GrantStep(u, token).phase.Idle?
  {}

  /** A successful call that nothing interrupts completes in this sense, and its answer
      carries its ID, the frontend of its record and its TTL in whole seconds. */
  lemma PlanCompletes(c: Config, w: World, q: Request, env: Env) returns (l: Label)
    requires Inv(c, w) && Fits(c, w, q, env) && Outcome(c, w, q, env).Ok?
    ensures var w1 := BeginStep(c, w, q, env.regID);
      var v := Registered(c, w, q, env);
      && Completes(c, w, q, env.regID, w1, Middle(q, env), l, v)
      && q.name in v.reg && v.reg[q.name].frontend == Outcome(c, w, q, env).value.frontend
      && Outcome(c, w, q, env).value.id == env.regID
      && Outcome(c, w, q, env).value.ttlSeconds ==
           if q.source == Docker then 0 else EffectiveTTL(c, q) / 1_000_000_000
  {
    hide EffectiveTTL;
    hide Inv, Fits, Outcome, Admit, BeginStep, Begins, InProgress, Registered, FrontendFor, Started, Fronting,
      InstallStep, RouteStep, DoneStep, GrantStep, Exec, Apply, Middle;
    var t := OkIsAdmitted(c, w, q, env);
    var w1 := BeginStep(c, w, q, env.regID);
    OkMeans(c, w, q, env, t);
    MiddleEndsRouted(c, w, q, env, t);
    MiddleIsRun(c, w, q, env);
    var token := if env.token.Some? then env.token.value else "";
    l := if t.source == Docker then Done else Grant(token);
    LastSteps(c, Exec(c, w1, Middle(q, env)), token);
    RoutedEnds(Exec(c, w1, Middle(q, env)), token);
    MiddleIsQuiet(q, env);
    InProgressBack(c, w1, Middle(q, env));
    AnswerIsInstalled(c, w, q, env, t);
  }

  lemma AnswerIsInstalled(c: Config, w: World, q: Request, env: Env, t: Ticket)
    requires Fits(c, w, q, env) && Outcome(c, w, q, env).Ok? && Admit(c, w.reg, q, env.regID) == Ok(t)
    ensures var v := Registered(c, w, q, env);
      && q.name in v.reg && v.reg[q.name].frontend == Outcome(c, w, q, env).value.frontend
      && Outcome(c, w, q, env).value.id == env.regID
      && Outcome(c, w, q, env).value.ttlSeconds ==
           if q.source == Docker then 0 else EffectiveTTL(c, q) / 1_000_000_000
  {
    AdmittedAsks(c, w.reg, q, env.regID, t);
    RegisteredDoes(c, w, q, env, t);
  }
}
