/** Where the backends of reachable states come from, and what requests are answered. */
module Answers {
  import opened Types
  import opened Registry
  import opened Admission
  import opened Acceptance
  import opened World
  import opened WorldInvariants
  import opened Theorems
  import R = Router
  import Hosts

  // ----- Provenance -----

  /** Some step of the run began a registration of `n` for this backend, and the request
      had a valid name and a valid loopback backend. */
  ghost predicate Asked(ls: seq<Label>, n: Name, b: Backend) {
    exists i :: 0 <= i < |ls| && ls[i].Begin? && ls[i].q.name == n && ls[i].q.backend == b
                && NameOk(ls[i].q.name) && BackendOk(ls[i].q)
  }

  lemma AskedGrows(ls: seq<Label>, l: Label, n: Name, b: Backend)
    requires Asked(ls, n, b)
    ensures Asked(ls + [l], n, b)
  {
    var i :| 0 <= i < |ls| && ls[i].Begin? && ls[i].q.name == n && ls[i].q.backend == b
             && NameOk(ls[i].q.name) && BackendOk(ls[i].q);
    assert (ls + [l])[i] == ls[i];
  }

  lemma AskedNow(c: Config, services: Services, ls: seq<Label>, q: Request, regID: Id)
    requires ValidConfig(c) && Admit(c, services, q, regID).Ok?
    ensures Asked(ls + [Begin(q, regID)], q.name, q.backend)
  {
    Verdict(c, services, q, regID);
    assert (ls + [Begin(q, regID)])[|ls|] == Begin(q, regID);
  }

  /** A record has a backend if and only if it is ready, and then one that was asked for. */
  ghost predicate Sourced(ls: seq<Label>, rec: Record) {
    && (rec.status == Ready <==> rec.backend.Some?)
    && (rec.backend.Some? ==> Asked(ls, rec.name, rec.backend.value))
  }

  ghost predicate AllSourced(ls: seq<Label>, w: World) {
    && (forall n :: n in w.reg ==> w.reg[n].name == n && Sourced(ls, w.reg[n]))
    && (!w.phase.Idle? && !AfterInstall(w.phase) ==> Asked(ls, w.phase.t.name, w.phase.t.backend))
  }

  lemma SourcedGrows(ls: seq<Label>, l: Label, rec: Record)
    requires Sourced(ls, rec)
    ensures Sourced(ls + [l], rec)
  {
    if rec.backend.Some? {
      AskedGrows(ls, l, rec.name, rec.backend.value);
    }
  }

  /** What a step may do to the registration in hand, as far as its request goes. */
  lemma HandFrame(c: Config, w: World, l: Label)
    requires var v := Apply(c, w, l); !v.phase.Idle? && !AfterInstall(v.phase)
    ensures var v := Apply(c, w, l);
      || (!w.phase.Idle? && !AfterInstall(w.phase) && v.phase.t == w.phase.t)
      || (l.Begin? && Admit(c, w.reg, l.q, l.regID) == Ok(v.phase.t))
  {}

  lemma HandSourced(c: Config, w: World, ls: seq<Label>, l: Label)
    requires ValidConfig(c) && AllSourced(ls, w)
    ensures var v := Apply(c, w, l);
      !v.phase.Idle? && !AfterInstall(v.phase) ==> Asked(ls + [l], v.phase.t.name, v.phase.t.backend)
  {
    hide Apply, Asked, Sourced, Admit;
    var v := Apply(c, w, l);
    if !v.phase.Idle? && !AfterInstall(v.phase) {
      HandFrame(c, w, l);
      if !w.phase.Idle? && !AfterInstall(w.phase) && v.phase.t == w.phase.t {
        AskedGrows(ls, l, v.phase.t.name, v.phase.t.backend);
      } else {
        AskedNow(c, w.reg, ls, l.q, l.regID);
        AdmittedAsks(c, w.reg, l.q, l.regID, v.phase.t);
      }
    }
  }

  /** Every record after a step was there before, was made dormant, or was installed from
      the registration in hand. */
  lemma RecordFrame(c: Config, w: World, l: Label, n: Name)
    requires n in Apply(c, w, l).reg
    ensures var rec := Apply(c, w, l).reg[n];
      || (n in w.reg && rec == w.reg[n])
      || (n in w.reg && rec.name == w.reg[n].name && rec.backend == None && rec.status == Unavailable)
      || (l.Install? && w.phase.Fronted? && w.phase.t.name == n && rec.name == n
          && rec.backend == Some(w.phase.t.backend) && rec.status == Ready)
  {}

  lemma SourcedStep(c: Config, w: World, ls: seq<Label>, l: Label)
    requires ValidConfig(c) && AllSourced(ls, w)
    ensures AllSourced(ls + [l], Apply(c, w, l))
  {
    hide Apply, Asked;
    HandSourced(c, w, ls, l);
    forall n | n in Apply(c, w, l).reg
      ensures Apply(c, w, l).reg[n].name == n && Sourced(ls + [l], Apply(c, w, l).reg[n])
    {
      RecordFrame(c, w, l, n);
      if n in w.reg {
        SourcedGrows(ls, l, w.reg[n]);
      }
      if w.phase.Fronted? {
        AskedGrows(ls, l, w.phase.t.name, w.phase.t.backend);
      }
    }
  }

  /** In every reachable state: each record has a backend if and only if it is ready, and
      that backend was asked for, under that name, by a request of the run with a valid
      name, a port between 1 and 65535 and a loopback host. */
  lemma {:induction false} BackendsWereAsked(c: Config, w0: World, ls: seq<Label>)
    requires ValidConfig(c) && Init(w0)
    ensures AllSourced(ls, Exec(c, w0, ls))
  {
    if ls != [] {
      BackendsWereAsked(c, w0, ls[..|ls| - 1]);
      SourcedStep(c, Exec(c, w0, ls[..|ls| - 1]), ls[..|ls| - 1], ls[|ls| - 1]);
      assert ls[..|ls| - 1] + [ls[|ls| - 1]] == ls;
    }
  }

  // ----- Answers -----

  lemma ServedIff(routes: R.Routes, services: Services, header: string)
    requires forall n :: n in services ==> (services[n].status == Ready <==> services[n].backend.Some?)
    requires forall k :: k in routes ==> routes[k] in services
    ensures var (a, key) := (R.Served(routes, services, header), Hosts.NormalizeHost(header));
      && (a == R.NoRoute404 <==> key !in routes)
      && (key in routes ==>
            var rec := services[routes[key]];
            && (a == R.Unavailable503 <==> rec.status == Unavailable)
            && (forall b :: a == R.ProxiedTo(b) <==> rec.status == Ready && rec.backend == Some(b)))
  {}

  /** In every reachable state a request without a route is answered 404; one whose route
      leads to a record is answered 503 if and only if the record is dormant, and proxied
      to a backend if and only if the record is ready with that backend. */
  lemma AnswersIff(c: Config, w0: World, ls: seq<Label>, header: string)
    requires ValidConfig(c) && Init(w0)
    ensures var w := Exec(c, w0, ls);
      var (a, key) := (R.Served(w.routes, w.reg, header), Hosts.NormalizeHost(header));
      && (a == R.NoRoute404 <==> key !in w.routes)
      && (key in w.routes ==> w.routes[key] in w.reg)
      && (key in w.routes ==>
            var rec := w.reg[w.routes[key]];
            && (a == R.Unavailable503 <==> rec.status == Unavailable)
            && (forall b :: a == R.ProxiedTo(b) <==> rec.status == Ready && rec.backend == Some(b)))
  {
    hide Exec, Init, R.Served, Hosts.NormalizeHost, Asked;
    BackendsWereAsked(c, w0, ls);
    InitKeeps(c, w0);
    RunKeeps(c, w0, ls);
    RoutesLead(c, Exec(c, w0, ls));
    ServedIff(Exec(c, w0, ls).routes, Exec(c, w0, ls).reg, header);
  }

  lemma RoutesLead(c: Config, w: World)
    requires Inv(c, w)
    ensures forall k :: k in w.routes ==> w.routes[k] in w.reg
  {
    assert RouteInv(w.reg, w.routes, w.phase);
  }

  // ----- After the end of a publication -----

  /** The step ends the current publication of `n`: after a deletion, a sweep, or the end
      of a container. */
  predicate EndsPublication(w: World, l: Label, n: Name) {
    && w.phase.Idle? && n in w.reg
    && match l
       case End(e) => e in w.book.pending && e.name == n && e.id == w.reg[n].producerID
       case Forget(e) => e.id !in w.book.issued && e.name == n && e.id == w.reg[n].producerID
       case _ => false
  }

  /** No new record of `n` is installed along the run. */
  predicate NeverInstalled(c: Config, w: World, ls: seq<Label>, n: Name) {
    ls == [] ||
    var v, l := Exec(c, w, ls[..|ls| - 1]), ls[|ls| - 1];
    NeverInstalled(c, w, ls[..|ls| - 1], n) && !Restarts(v, l)
    && !(l.Install? && v.phase.Fronted? && v.phase.t.name == n)
  }

  predicate IsDormant(w: World, n: Name, kind: Kind, hostname: string) {
    n in w.reg && w.reg[n].status == Unavailable && w.reg[n].kind == kind && w.reg[n].hostname == hostname
  }

  lemma EndMakesDormant(c: Config, w: World, l: Label, n: Name)
    requires EndsPublication(w, l, n)
    ensures n in w.reg && IsDormant(Apply(c, w, l), n, w.reg[n].kind, w.reg[n].hostname)
  {}

  lemma DormantStep(c: Config, w: World, l: Label, n: Name, kind: Kind, hostname: string)
    requires IsDormant(w, n, kind, hostname) && !Restarts(w, l)
    requires !(l.Install? && w.phase.Fronted? && w.phase.t.name == n)
    ensures IsDormant(Apply(c, w, l), n, kind, hostname)
  {
    if l.Restart? {
      assert Apply(c, w, l) == w;
    } else if !l.Install? && !l.End? && !l.Forget? {
      RegFrame(c, w, l);
    }
  }

  lemma {:induction false} DormantStays(c: Config, w: World, ls: seq<Label>, n: Name, kind: Kind, hostname: string)
    requires IsDormant(w, n, kind, hostname) && NeverInstalled(c, w, ls, n)
    ensures IsDormant(Exec(c, w, ls), n, kind, hostname)
  {
    if ls != [] {
      DormantStays(c, w, ls[..|ls| - 1], n, kind, hostname);
      DormantStep(c, Exec(c, w, ls[..|ls| - 1]), ls[|ls| - 1], n, kind, hostname);
    }
  }

  lemma DormantIsRouted(c: Config, v: World, n: Name, header: string)
    requires Inv(c, v) && n in v.reg && v.reg[n].kind == HTTP && v.reg[n].status == Unavailable
    requires R.OwnsKey(v.reg, n) && Hosts.NormalizeHost(header) == v.reg[n].hostname
    ensures v.reg[n].hostname in v.routes && v.routes[v.reg[n].hostname] == n
  {
    var key := v.reg[n].hostname;
    assert PhaseInv(v.reg, v.book, v.phase) && UrlInv(c, v.reg, v.phase) && RouteInv(v.reg, v.routes, v.phase);
    Hosts.FixedPointIff(key);
    assert v.reg[n].frontend == R.FrontendURL(c, key);
    assert key in v.routes;
    assert v.reg[v.routes[key]].frontend == R.FrontendURL(c, v.reg[v.routes[key]].hostname);
  }

  /** From the end of a publication on, over any run until a record of its name is
      installed again or the daemon restarts, requests for its hostname are answered 503. */
  lemma EndedIsUnavailable(c: Config, w0: World, ls: seq<Label>, l: Label, more: seq<Label>, n: Name, header: string)
    requires ValidConfig(c) && Init(w0) && EndsPublication(Exec(c, w0, ls), l, n)
    requires Exec(c, w0, ls).reg[n].kind == HTTP
    requires NeverInstalled(c, Apply(c, Exec(c, w0, ls), l), more, n)
    requires var v := Exec(c, Apply(c, Exec(c, w0, ls), l), more);
      n in v.reg ==> R.OwnsKey(v.reg, n) && Hosts.NormalizeHost(header) == v.reg[n].hostname
    ensures var v := Exec(c, Apply(c, Exec(c, w0, ls), l), more);
      R.Served(v.routes, v.reg, header) == R.Unavailable503
  {
    hide Inv, Exec, Apply, Init, EndsPublication, NeverInstalled, R.Served, R.OwnsKey, Hosts.NormalizeHost;
    var w := Exec(c, w0, ls);
    var w1 := Apply(c, w, l);
    var v := Exec(c, w1, more);
    EndMakesDormant(c, w, l, n);
    DormantStays(c, w1, more, n, HTTP, w.reg[n].hostname);
    ExecSplit(c, w0, ls, l);
    ExecConcat(c, w0, ls + [l], more);
    InitKeeps(c, w0);
    RunKeeps(c, w0, ls + [l] + more);
    DormantIsRouted(c, v, n, header);
    AnswersIff(c, w0, ls + [l] + more, header);
  }
}
