/** The Docker watcher beside the daemon, at the granularity of both: publishing a
    container is a registration of the transition system, tracking it a later step, and
    untracking and forgetting are two steps as well. Everything else the daemon does
    comes between any two of them. */
module DockerInterleaving {
  import opened Types
  import opened Registry
  import opened Admission
  import opened Convergence
  import opened DockerWatch
  import W = World
  import WI = WorldInvariants
  import T = Theorems

  /** `arriving` is the container published and not yet tracked; `leaving` holds those
      untracked and not yet forgotten. */
  datatype State = State(w: W.World, tracked: Tracked, leaving: Tracked, arriving: Option<(Id, Name)>)

  datatype Step =
    | Daemon(l: W.Label)
    | Track
    | Untrack(id: Id)
    | UntrackGone(seen: set<Id>)
    | Forget(id: Id)

  predicate DockerInstall(w: W.World, l: W.Label) {
    l.Install? && w.phase.Fronted? && w.phase.t.source == Docker
  }

  /** A restart takes the watcher down with the daemon. */
  function DaemonStep(c: Config, s: State, l: W.Label): State {
    var w' := W.Apply(c, s.w, l);
    if T.Restarts(s.w, l) then State(w', map[], map[], None)
    else if DockerInstall(s.w, l) then s.(w := w', arriving := Some((s.w.phase.t.producerID, s.w.phase.t.name)))
    else s.(w := w')
  }

  function ForgetStep(s: State, id: Id): State {
    if id in s.leaving && s.w.phase.Idle?
    then s.(w := W.ForgetStep(s.w, W.Ending(s.leaving[id], id)), leaving := s.leaving - {id})
    else s
  }

  function TrackStep(s: State): State {
    if s.arriving.Some?
    then s.(tracked := s.tracked[s.arriving.value.0 := s.arriving.value.1], arriving := None)
    else s
  }

  function Apply(c: Config, s: State, l: Step): State {
    match l
    case Daemon(l) => DaemonStep(c, s, l)
    case Track => TrackStep(s)
    case Untrack(id) =>
      if id in s.tracked then s.(tracked := s.tracked - {id}, leaving := s.leaving[id := s.tracked[id]]) else s
    case UntrackGone(seen) =>
      s.(tracked := Kept(s.tracked, seen), leaving := s.leaving + Gone(s.tracked, seen))
    case Forget(id) => ForgetStep(s, id)
  }

  function Exec(c: Config, s: State, ls: seq<Step>): State {
    if ls == [] then s else Apply(c, Exec(c, s, ls[..|ls| - 1]), ls[|ls| - 1])
  }

  /** Only the watcher registers for Docker and forgets containers, one at a time, and a
      container's name is fixed by its ID. */
  predicate Allowed(names: Id -> Name, s: State, l: Step) {
    l.Daemon? ==>
      && !l.l.Forget?
      && (l.l.Begin? && l.l.q.source == Docker ==> s.arriving == None && l.l.q.name == names(l.l.q.containerID))
  }

  predicate AllAllowed(c: Config, names: Id -> Name, s: State, ls: seq<Step>) {
    ls == [] || (AllAllowed(c, names, s, ls[..|ls| - 1])
                 && Allowed(names, Exec(c, s, ls[..|ls| - 1]), ls[|ls| - 1]))
  }

  // ----- What every run keeps -----

  /** The registration in hand, if it is Docker's, and what has arrived. */
  ghost predicate HandInv(names: Id -> Name, s: State) {
    && (!s.w.phase.Idle? && s.w.phase.t.source == Docker && !W.AfterInstall(s.w.phase) ==>
          s.w.phase.t.name == names(s.w.phase.t.producerID) && s.arriving == None)
    && (s.arriving.Some? ==>
          s.arriving.value.1 == names(s.arriving.value.0) && s.arriving.value.0 in s.w.book.containers)
  }

  ghost predicate MapInv(names: Id -> Name, s: State) {
    && Named(names, s.tracked) && Named(names, s.leaving)
    && s.tracked.Keys <= s.w.book.containers && s.leaving.Keys <= s.w.book.containers
  }

  /** Every ready Docker record has its container's name, and its container is tracked,
      about to be, or about to be forgotten. */
  ghost predicate Covered(names: Id -> Name, reg: Services, s: State) {
    forall n :: n in reg && reg[n].status == Ready && reg[n].source == Docker ==>
      var id := reg[n].producerID;
      names(id) == n && (id in s.tracked || id in s.leaving || s.arriving == Some((id, n)))
  }

  ghost predicate WatchInv(names: Id -> Name, s: State) {
    HandInv(names, s) && MapInv(names, s) && Covered(names, s.w.reg, s)
  }

  ghost predicate Inv(c: Config, names: Id -> Name, s: State) { W.Inv(c, s.w) && WatchInv(names, s) }

  /** The port of a frontend, as an allocation would have delivered it. */
  function PortOf(f: Frontend): Option<int> { if f.Port? then Some(f.port) else None }

  /** In every reachable state the installation of a record publishes its ticket. */
  lemma InstallPublishes(c: Config, w: W.World)
    requires W.Inv(c, w) && w.phase.Fronted?
    ensures Accepts(w.reg, w.phase.t) && FrontIn(UrlsOf(c), w.reg, w.phase.t, PortOf(w.phase.frontend)).Some?
    ensures W.InstallStep(w).reg == Published(UrlsOf(c), w.reg, w.phase.t, PortOf(w.phase.frontend))
    ensures W.InstallStep(w).book == w.book && W.InstallStep(w).phase == W.Installed(w.phase.t)
  {
    assert W.PhaseInv(w.reg, w.book, w.phase) && W.RuntimeInv(w.reg, w.fronts.runtimes, w.phase)
           && W.UrlInv(c, w.reg, w.phase);
  }

  /** What the installation of a Docker registration does to the pair. */
  function Arrived(c: Config, s: State, reg: Services): State
    requires s.w.phase.Fronted?
  {
    s.(w := s.w.(reg := reg, phase := W.Installed(s.w.phase.t)),
       arriving := Some((s.w.phase.t.producerID, s.w.phase.t.name)))
  }

  lemma InstallArrives(c: Config, s: State)
    requires W.Inv(c, s.w) && DockerInstall(s.w, W.Install)
    ensures DaemonStep(c, s, W.Install) ==
      Arrived(c, s, Published(UrlsOf(c), s.w.reg, s.w.phase.t, PortOf(s.w.phase.frontend)))
    ensures Accepts(s.w.reg, s.w.phase.t) && s.w.phase.t.producerID in s.w.book.containers
    ensures FrontIn(UrlsOf(c), s.w.reg, s.w.phase.t, PortOf(s.w.phase.frontend)).Some?
  {
    InstallPublishes(c, s.w);
    assert W.PhaseInv(s.w.reg, s.w.book, s.w.phase);
  }

  /** Installing and then tracking is what a pass does for one container. */
  lemma InstallThenTrack(c: Config, s: State)
    requires W.Inv(c, s.w) && DockerInstall(s.w, W.Install)
    ensures var s' := TrackStep(DaemonStep(c, s, W.Install));
      View(s'.w.reg, s'.tracked) ==
        RegisteredView(UrlsOf(c), View(s.w.reg, s.tracked), s.w.phase.t.producerID, Some(s.w.phase.t),
                       PortOf(s.w.phase.frontend))
  {
    InstallArrives(c, s);
  }

  lemma ContainersGrow(c: Config, w: W.World, l: W.Label)
    ensures w.book.containers <= W.Apply(c, w, l).book.containers
  {}

  lemma DockerInHand(c: Config, w: W.World, l: W.Label)
    requires var v := W.Apply(c, w, l); !v.phase.Idle? && !W.AfterInstall(v.phase)
    ensures var t := W.Apply(c, w, l).phase.t;
      || (!w.phase.Idle? && !W.AfterInstall(w.phase) && t == w.phase.t)
      || (l.Begin? && t.source == l.q.source && t.name == l.q.name
          && (t.source == Docker ==> t.producerID == l.q.containerID))
  {}

  lemma ArrivedCovered(c: Config, names: Id -> Name, s: State, port: Option<int>)
    requires WatchInv(names, s) && s.w.phase.Fronted? && s.w.phase.t.source == Docker
    requires s.w.phase.t.producerID in s.w.book.containers
    ensures WatchInv(names, Arrived(c, s, Published(UrlsOf(c), s.w.reg, s.w.phase.t, port)))
  {}

  lemma InstallKeeps(c: Config, names: Id -> Name, s: State)
    requires Inv(c, names, s) && DockerInstall(s.w, W.Install)
    ensures Inv(c, names, DaemonStep(c, s, W.Install))
  {
    WI.InstallKeeps(c, s.w);
    InstallArrives(c, s);
    ArrivedCovered(c, names, s, PortOf(s.w.phase.frontend));
  }

  lemma OtherKeeps(c: Config, names: Id -> Name, s: State, l: W.Label)
    requires Inv(c, names, s) && Allowed(names, s, Daemon(l)) && !DockerInstall(s.w, l) && !T.Restarts(s.w, l)
    ensures Inv(c, names, DaemonStep(c, s, l))
  {
    WI.StepKeeps(c, s.w, l);
    T.OnlyDockerPublishesForDocker(c, s.w, l);
    ContainersGrow(c, s.w, l);
    if !W.Apply(c, s.w, l).phase.Idle? && !W.AfterInstall(W.Apply(c, s.w, l).phase) {
      DockerInHand(c, s.w, l);
    }
  }

  lemma RestartKeeps(c: Config, names: Id -> Name, s: State, l: W.Label)
    requires W.Inv(c, s.w) && T.Restarts(s.w, l)
    ensures Inv(c, names, DaemonStep(c, s, l))
  {
    WI.StepKeeps(c, s.w, l);
  }

  lemma ForgetWatched(names: Id -> Name, s: State, id: Id)
    requires WatchInv(names, s) && id !in s.w.book.issued
    ensures WatchInv(names, ForgetStep(s, id))
  {}

  lemma ForgetKeeps(c: Config, names: Id -> Name, s: State, id: Id)
    requires Inv(c, names, s)
    ensures Inv(c, names, ForgetStep(s, id))
  {
    if id in s.leaving && s.w.phase.Idle? {
      WI.ForgetKeeps(c, s.w, W.Ending(s.leaving[id], id));
      assert W.IdInv(s.w.reg, s.w.book);
      ForgetWatched(names, s, id);
    }
  }

  lemma UntrackWatched(names: Id -> Name, s: State, seen: set<Id>)
    requires WatchInv(names, s)
    ensures WatchInv(names, s.(tracked := Kept(s.tracked, seen), leaving := s.leaving + Gone(s.tracked, seen)))
  {}

  lemma StepKeeps(c: Config, names: Id -> Name, s: State, l: Step)
    requires Inv(c, names, s) && Allowed(names, s, l)
    ensures Inv(c, names, Apply(c, s, l))
  {
    if l.Forget? {
      ForgetKeeps(c, names, s, l.id);
    } else if l.Daemon? && T.Restarts(s.w, l.l) {
      RestartKeeps(c, names, s, l.l);
    } else if l.Daemon? && DockerInstall(s.w, l.l) {
      InstallKeeps(c, names, s);
    } else if l.Daemon? {
      OtherKeeps(c, names, s, l.l);
    } else if l.UntrackGone? {
      UntrackWatched(names, s, l.seen);
    }
  }

  lemma {:induction false} RunKeeps(c: Config, names: Id -> Name, s: State, ls: seq<Step>)
    requires Inv(c, names, s) && AllAllowed(c, names, s, ls)
    ensures Inv(c, names, Exec(c, s, ls))
  {
    if ls != [] {
      RunKeeps(c, names, s, ls[..|ls| - 1]);
      StepKeeps(c, names, Exec(c, s, ls[..|ls| - 1]), ls[|ls| - 1]);
    }
  }

  /** Over every run of daemon and watcher no ready Docker record escapes the watcher;
      whenever nothing is on its way in or out, each belongs to a tracked container under
      its name. */
  lemma RunsStayCoupled(c: Config, names: Id -> Name, w0: W.World, ls: seq<Step>)
    requires ValidConfig(c) && W.Init(w0)
    requires AllAllowed(c, names, State(w0, map[], map[], None), ls)
    ensures var s := Exec(c, State(w0, map[], map[], None), ls);
      Covered(names, s.w.reg, s) && (s.leaving == map[] && s.arriving == None ==> Coupled(View(s.w.reg, s.tracked)))
  {
    WI.InitKeeps(c, w0);
    RunKeeps(c, names, State(w0, map[], map[], None), ls);
  }

  // ----- A pass -----

  /** The second half of a pass, with anything but the watcher's own registrations in
      between. */
  predicate Forgetting(ls: seq<Step>) {
    forall i :: 0 <= i < |ls| ==> ls[i].Forget? || (ls[i].Daemon? && !(ls[i].l.Begin? && ls[i].l.q.source == Docker))
  }

  /** Nothing of Docker's is in hand or untracked. */
  predicate Quiet(s: State) { s.arriving == None && (s.w.phase.Idle? || s.w.phase.t.source != Docker) }

  lemma QuietStep(c: Config, s: State, l: Step)
    requires Quiet(s) && Forgetting([l])
    ensures Quiet(Apply(c, s, l)) && Apply(c, s, l).tracked.Keys <= s.tracked.Keys
  {
    assert [l][0] == l;
    if l.Daemon? && !l.l.Begin? && !l.l.Restart? {
      T.PhaseFrame(c, s.w, l.l);
    }
  }

  lemma {:induction false} ForgettingTracks(c: Config, s: State, ls: seq<Step>)
    requires Quiet(s) && Forgetting(ls)
    ensures Quiet(Exec(c, s, ls)) && Exec(c, s, ls).tracked.Keys <= s.tracked.Keys
  {
    if ls != [] {
      ForgettingTracks(c, s, ls[..|ls| - 1]);
      QuietStep(c, Exec(c, s, ls[..|ls| - 1]), ls[|ls| - 1]);
    }
  }

  /** A pass interleaved with everybody else: once all that was not listed has been
      untracked and forgotten, every ready Docker record belongs to a listed container. */
  lemma InterleavedPassLeavesOnlyListed(c: Config, names: Id -> Name, s: State, seen: set<Id>, ls: seq<Step>, n: Name)
    requires Inv(c, names, s) && Quiet(s) && Forgetting(ls)
    requires var s1 := Apply(c, s, UntrackGone(seen));
      AllAllowed(c, names, s1, ls) && Exec(c, s1, ls).leaving == map[]
    requires var r := Exec(c, Apply(c, s, UntrackGone(seen)), ls).w.reg;
      n in r && r[n].status == Ready && r[n].source == Docker
    ensures Exec(c, Apply(c, s, UntrackGone(seen)), ls).w.reg[n].producerID in seen
  {
    var s1 := Apply(c, s, UntrackGone(seen));
    UntrackWatched(names, s, seen);
    RunKeeps(c, names, s1, ls);
    ForgettingTracks(c, s1, ls);
  }
}
