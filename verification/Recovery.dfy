/** A client whose lease is gone registers again. */
module Recovery {
  import opened Types
  import opened Registry
  import opened Admission
  import opened World
  import opened WorldInvariants
  import opened Registration
  import opened FailedRegistrations
  import opened CompletedRegistrations
  import opened Theorems

  /** A request that was admitted once, for a name that still has the kind and hostname it
      asked for, passes the checks again if and only if its owner may claim the name. */
  lemma AdmittedAgainIff(c: Config, w: World, q: Request, first: Ticket, before: Services, again: Id)
    requires RouteInv(w.reg, w.routes, Idle) && Admit(c, before, q, first.regID) == Ok(first)
    requires q.name in w.reg && w.reg[q.name].kind == first.kind && w.reg[q.name].hostname == first.hostname
    ensures Admit(c, w.reg, q, again).Ok? <==> Claimable(w.reg, q.name, OwnerKeyOf(q, again))
  {
    if Claimable(w.reg, q.name, OwnerKeyOf(q, again)) {
      var t := TicketOf(c, q, again, first.kind, first.hostname);
      AdmittedHost(c, before, q, first.regID, first);
      SameIdentityIsCompatible(w, t);
      AdmittedAgain(c, before, w.reg, q, first, again, t);
    } else {
      RefusedUnlessClaimable(c, w.reg, q, again);
    }
  }

  lemma BeginsIffAdmitted(c: Config, w: World, q: Request, regID: Id)
    requires w.phase.Idle? && FreshID(w.book, q, regID)
    ensures BeginStep(c, w, q, regID).phase.Checked? <==> Admit(c, w.reg, q, regID).Ok?
  {}

  lemma IdleRoutes(c: Config, w: World)
    requires Inv(c, w) && w.phase.Idle?
    ensures RouteInv(w.reg, w.routes, Idle)
  {}

  /** After a registration has completed, whatever came between its steps, and after any
      run without a restart: the same request passes the checks under a new ID if and only
      if the name is its owner's or dormant. The name still has its frontend. */
  lemma RegistersAgainIff(c: Config, w: World, q: Request, regID: Id, w1: World, ls: seq<Label>, l: Label, v: World,
                          more: seq<Label>, again: Id)
    requires Inv(c, w) && Completes(c, w, q, regID, w1, ls, l, v) && NeverRestarts(c, v, more)
    requires Exec(c, v, more).phase.Idle? && FreshID(Exec(c, v, more).book, q, again)
    ensures q.name in v.reg && q.name in Exec(c, v, more).reg
    ensures Exec(c, v, more).reg[q.name].frontend == v.reg[q.name].frontend
    ensures BeginStep(c, Exec(c, v, more), q, again).phase.Checked? <==>
      Claimable(Exec(c, v, more).reg, q.name, OwnerKeyOf(q, again))
  {
    hide Inv, Admit, BeginStep, Exec, FreshID, Claimable, NeverRestarts, RouteInv, OwnerKeyOf;
    var x := Exec(c, v, more);
    CompletedDoes(c, w, q, regID, w1, ls, l, v);
    AdmittedAsks(c, w.reg, q, regID, w1.phase.t);
    FrontendPermanence(c, v, more, q.name);
    RunKeeps(c, v, more);
    IdleRoutes(c, x);
    AdmittedAgainIff(c, x, q, w1.phase.t, w.reg, again);
    BeginsIffAdmitted(c, x, q, again);
  }

  /** From then on it cannot give up, whatever is interleaved with it, and when it
      completes the name has the frontend it had before, under the new ID. */
  lemma SameFrontendAgain(c: Config, x: World, q: Request, again: Id, x1: World, ls: seq<Label>, l: Label)
    requires Inv(c, x) && q.name in x.reg && Begins(c, x, q, again, x1) && InProgress(c, x1, ls)
    ensures !GivesUp(c, Exec(c, x1, ls), l)
    ensures var y := Apply(c, Exec(c, x1, ls), l);
      Completes(c, x, q, again, x1, ls, l, y) ==>
        && q.name in y.reg && y.reg[q.name].frontend == x.reg[q.name].frontend
        && (q.source != Docker ==> y.reg[q.name].producerID == again)
  {
    hide Inv, BeginStep, Apply, Exec, GivesUp, InProgress;
    Begun(c, x, q, again, x1);
    if GivesUp(c, Exec(c, x1, ls), l) {
      GivingUpLeaves(c, x, q, again, x1, ls, l);
    }
    var y := Apply(c, Exec(c, x1, ls), l);
    if Completes(c, x, q, again, x1, ls, l, y) {
      CompletedDoes(c, x, q, again, x1, ls, l, y);
      AgainOwner(c, x, q, again, x1);
      InProgressNeverRestarts(c, x1, ls);
      FrontendPermanence(c, x1, ls, q.name);
      RunKeeps(c, x1, ls);
      LastKeepsFrontend(c, Exec(c, x1, ls), l, q.name);
    }
  }

  lemma AgainOwner(c: Config, x: World, q: Request, again: Id, x1: World)
    requires !x1.phase.Idle? && Admit(c, x.reg, q, again) == Ok(x1.phase.t)
    ensures q.source != Docker ==> x1.phase.t.producerID == again
  {}

  lemma LastKeepsFrontend(c: Config, u: World, l: Label, n: Name)
    requires Inv(c, u) && n in u.reg && (l.Grant? || l.Done?)
    ensures n in Apply(c, u, l).reg && SameFrontend(u.reg[n], Apply(c, u, l).reg[n])
  {
    StepKeepsFrontend(c, u, l, n);
  }
}
