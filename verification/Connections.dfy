/** internal/runtime/service.go: admission of client connections and shutdown, as the
    accept loop, the proxy workers and one closer interleave. Connections are numbered
    in the order they are accepted. */
module Connections {
  const SLOTS: nat := 4096

  type Conn = nat

  // ----- The state guarded by connMu -----

  datatype Gate = Gate(closed: bool, connections: set<Conn>, proxies: int)

  function Begun(g: Gate, c: Conn): Gate {
    if g.closed then g else g.(connections := g.connections + {c}, proxies := g.proxies + 1)
  }

  // ----- The three parties -----

  /** Where the accept loop is and which connection it has in hand. */
  datatype Loop =
    | Waiting
    | Accepted(conn: Conn)
    | HasBackend(conn: Conn)
    | HasSlot(conn: Conn)
    | Admitted(conn: Conn)
    | Refused(conn: Conn)
    | Dropping(conn: Conn)
    | Stopped

  /** How far shutdown has got; `Hanging` holds the copied connections not yet closed. */
  datatype Closer =
    | Open
    | Flagged
    | ListenerClosed
    | Hanging(rest: set<Conn>)
    | Swept

  /** Workers by stage: copying bytes, socket closed, removed from the set, done with the
      wait group. `admitted` remembers every connection that got past beginProxy. */
  datatype State = State(
    next: Conn,
    loop: Loop,
    gate: Gate,
    slots: int,
    copying: set<Conn>,
    closing: set<Conn>,
    untracked: set<Conn>,
    finished: set<Conn>,
    hungUp: set<Conn>,
    admitted: set<Conn>,
    closer: Closer)

  const START: State := State(0, Waiting, Gate(false, {}, 0), 0, {}, {}, {}, {}, {}, {}, Open)

  datatype Label =
    | Accept
    | AcceptError
    | Resolve(available: bool)
    | Acquire
    | Begin
    | Release
    | Drop
    | Spawn
    | Hangup(c: Conn)
    | Untrack(c: Conn)
    | Finish(c: Conn)
    | Leave(c: Conn)
    | SetFlag
    | CloseListener
    | Snapshot
    | HangupOne(c: Conn)
    | SweepDone

  // The accept loop.

  function AcceptStep(s: State): State {
    if s.loop.Waiting? && (s.closer.Open? || s.closer.Flagged?)
    then s.(next := s.next + 1, loop := Accepted(s.next)) else s
  }

  function AcceptErrorStep(s: State): State {
    if s.loop.Waiting? && s.gate.closed then s.(loop := Stopped) else s
  }

  function ResolveStep(s: State, available: bool): State {
    if s.loop.Accepted?
    then s.(loop := if available then HasBackend(s.loop.conn) else Dropping(s.loop.conn)) else s
  }

  function AcquireStep(s: State): State {
    if !s.loop.HasBackend? then s
    else if s.slots < SLOTS then s.(loop := HasSlot(s.loop.conn), slots := s.slots + 1)
    else s.(loop := Dropping(s.loop.conn))
  }

  function BeginStep(s: State): State {
    if !s.loop.HasSlot? then s
    else if s.gate.closed then s.(loop := Refused(s.loop.conn))
    else s.(loop := Admitted(s.loop.conn), gate := Begun(s.gate, s.loop.conn), admitted := s.admitted + {s.loop.conn})
  }

  function ReleaseStep(s: State): State {
    if s.loop.Refused? then s.(loop := Dropping(s.loop.conn), slots := s.slots - 1) else s
  }

  function DropStep(s: State): State {
    if s.loop.Dropping? then s.(loop := Waiting, hungUp := s.hungUp + {s.loop.conn}) else s
  }

  function SpawnStep(s: State): State {
    if s.loop.Admitted? then s.(loop := Waiting, copying := s.copying + {s.loop.conn}) else s
  }

  // A worker.

  function HangupStep(s: State, c: Conn): State {
    if c in s.copying
    then s.(copying := s.copying - {c}, closing := s.closing + {c}, hungUp := s.hungUp + {c}) else s
  }

  function UntrackStep(s: State, c: Conn): State {
    if c in s.closing
    then s.(closing := s.closing - {c}, untracked := s.untracked + {c},
            gate := s.gate.(connections := s.gate.connections - {c}))
    else s
  }

  function FinishStep(s: State, c: Conn): State {
    if c in s.untracked
    then s.(untracked := s.untracked - {c}, finished := s.finished + {c},
            gate := s.gate.(proxies := s.gate.proxies - 1))
    else s
  }

  function LeaveStep(s: State, c: Conn): State {
    if c in s.finished then s.(finished := s.finished - {c}, slots := s.slots - 1) else s
  }

  // The closer.

  function SetFlagStep(s: State): State {
    if s.closer.Open? then s.(closer := Flagged, gate := s.gate.(closed := true)) else s
  }

  function HangupOneStep(s: State, c: Conn): State {
    if s.closer.Hanging? && c in s.closer.rest
    then s.(closer := Hanging(s.closer.rest - {c}), hungUp := s.hungUp + {c}) else s
  }

  function Apply(s: State, l: Label): State {
    match l
    case Accept => AcceptStep(s)
    case AcceptError => AcceptErrorStep(s)
    case Resolve(available) => ResolveStep(s, available)
    case Acquire => AcquireStep(s)
    case Begin => BeginStep(s)
    case Release => ReleaseStep(s)
    case Drop => DropStep(s)
    case Spawn => SpawnStep(s)
    case Hangup(c) => HangupStep(s, c)
    case Untrack(c) => UntrackStep(s, c)
    case Finish(c) => FinishStep(s, c)
    case Leave(c) => LeaveStep(s, c)
    case SetFlag => SetFlagStep(s)
    case CloseListener => if s.closer.Flagged? then s.(closer := ListenerClosed) else s
    case Snapshot => if s.closer.ListenerClosed? then s.(closer := Hanging(s.gate.connections)) else s
    case HangupOne(c) => HangupOneStep(s, c)
    case SweepDone => if s.closer == Hanging({}) then s.(closer := Swept) else s
  }

  function Exec(s: State, ls: seq<Label>): State {
    if ls == [] then s else Apply(Exec(s, ls[..|ls| - 1]), ls[|ls| - 1])
  }

  // ----- What every interleaving keeps -----

  predicate InHand(s: State, c: Conn) { !s.loop.Waiting? && !s.loop.Stopped? && s.loop.conn == c }

  function Workers(s: State): nat { |s.copying| + |s.closing| + |s.untracked| + |s.finished| }

  predicate HoldsSlot(l: Loop) { l.HasSlot? || l.Admitted? || l.Refused? }

  predicate Worker(s: State, c: Conn) { c in s.copying || c in s.closing || c in s.untracked || c in s.finished }

  /** Each worker is in one stage, and the connection about to get one in none. */
  ghost predicate Stages(s: State) {
    && s.copying !! s.closing !! s.untracked !! s.finished
    && (s.loop.Admitted? ==> !Worker(s, s.loop.conn))
  }

  /** Slots and the wait group count what they should. */
  ghost predicate Counts(s: State) {
    && s.slots == Workers(s) + (if HoldsSlot(s.loop) then 1 else 0) && s.slots <= SLOTS
    && s.gate.proxies == |s.copying| + |s.closing| + |s.untracked| + (if s.loop.Admitted? then 1 else 0)
  }

  ghost predicate Tracking(s: State) {
    s.gate.connections == s.copying + s.closing + (if s.loop.Admitted? then {s.loop.conn} else {})
  }

  /** Every accepted connection is in hand, with a worker, or closed. */
  ghost predicate Located(s: State) {
    && (forall c: Conn :: c in s.hungUp ==> c < s.next)
    && (!s.loop.Waiting? && !s.loop.Stopped? ==>
          s.loop.conn < s.next && (s.loop.conn in s.admitted <==> s.loop.Admitted?))
    && (forall c: Conn :: c < s.next ==> InHand(s, c) || c in s.copying || c in s.hungUp)
    && (forall c: Conn :: c in s.closing || c in s.untracked || c in s.finished ==> c in s.hungUp)
    && (forall c: Conn :: Worker(s, c) ==> c in s.admitted)
    && (forall c: Conn :: c in s.admitted ==> c < s.next)
  }

  ghost predicate Shutting(s: State) {
    && (s.gate.closed <==> !s.closer.Open?)
    && (s.loop.Stopped? ==> s.gate.closed)
    && (s.closer.Hanging? ==>
          s.closer.rest <= s.admitted && forall c: Conn :: c in s.admitted ==> c in s.hungUp || c in s.closer.rest)
    && (s.closer.Swept? ==> s.admitted <= s.hungUp)
  }

  ghost predicate Inv(s: State) { Stages(s) && Counts(s) && Tracking(s) && Located(s) && Shutting(s) }

  predicate LoopLabel(l: Label) {
    l.Accept? || l.AcceptError? || l.Resolve? || l.Acquire? || l.Begin? || l.Release? || l.Drop? || l.Spawn?
  }

  predicate WorkerLabel(l: Label) { l.Hangup? || l.Untrack? || l.Finish? || l.Leave? }

  lemma StagesKept(s: State, l: Label)
    requires Stages(s) && Located(s)
    ensures Stages(Apply(s, l))
  {}

  /** The sizes of the four stages after a step. */
  lemma StageSizes(s: State, c: Conn)
    requires Stages(s)
    ensures c in s.copying ==> |s.copying - {c}| == |s.copying| - 1 && |s.closing + {c}| == |s.closing| + 1
    ensures c in s.closing ==> |s.closing - {c}| == |s.closing| - 1 && |s.untracked + {c}| == |s.untracked| + 1
    ensures c in s.untracked ==> |s.untracked - {c}| == |s.untracked| - 1 && |s.finished + {c}| == |s.finished| + 1
    ensures c in s.finished ==> |s.finished - {c}| == |s.finished| - 1
    ensures !Worker(s, c) ==> |s.copying + {c}| == |s.copying| + 1
  {}

  lemma SpawnCounts(s: State)
    requires Stages(s) && Counts(s)
    ensures Counts(SpawnStep(s)) && Rank(SpawnStep(s)) <= Rank(s)
    ensures SpawnStep(s) != s ==> Rank(SpawnStep(s)) < Rank(s)
  {
    if s.loop.Admitted? {
      StageSizes(s, s.loop.conn);
    }
  }

  lemma HangupCounts(s: State, c: Conn)
    requires Stages(s) && Counts(s)
    ensures Counts(HangupStep(s, c)) && Rank(HangupStep(s, c)) == Rank(s) - if c in s.copying then 1 else 0
  {
    StageSizes(s, c);
  }

  lemma UntrackCounts(s: State, c: Conn)
    requires Stages(s) && Counts(s)
    ensures Counts(UntrackStep(s, c)) && Rank(UntrackStep(s, c)) == Rank(s) - if c in s.closing then 1 else 0
  {
    StageSizes(s, c);
  }

  lemma FinishCounts(s: State, c: Conn)
    requires Stages(s) && Counts(s)
    ensures Counts(FinishStep(s, c)) && Rank(FinishStep(s, c)) == Rank(s) - if c in s.untracked then 1 else 0
  {
    StageSizes(s, c);
  }

  lemma LeaveCounts(s: State, c: Conn)
    requires Stages(s) && Counts(s)
    ensures Counts(LeaveStep(s, c)) && Rank(LeaveStep(s, c)) == Rank(s) - if c in s.finished then 1 else 0
  {
    StageSizes(s, c);
  }

  /** The workers are untouched by all other steps. */
  lemma OtherCounts(s: State, l: Label)
    requires Counts(s) && !l.Spawn? && !WorkerLabel(l)
    ensures var s' := Apply(s, l);
      && s'.copying == s.copying && s'.closing == s.closing && s'.untracked == s.untracked && s'.finished == s.finished
      && s'.slots - (if HoldsSlot(s'.loop) then 1 else 0) == s.slots - (if HoldsSlot(s.loop) then 1 else 0)
      && s'.gate.proxies - (if s'.loop.Admitted? then 1 else 0) == s.gate.proxies - (if s.loop.Admitted? then 1 else 0)
      && s'.slots <= SLOTS
  {}

  lemma CountsKept(s: State, l: Label)
    requires Stages(s) && Counts(s)
    ensures Counts(Apply(s, l))
  {
    match l
    case Spawn => SpawnCounts(s);
    case Hangup(c) => HangupCounts(s, c);
    case Untrack(c) => UntrackCounts(s, c);
    case Finish(c) => FinishCounts(s, c);
    case Leave(c) => LeaveCounts(s, c);
    case _ => OtherCounts(s, l);
  }

  lemma TrackingKept(s: State, l: Label)
    requires Stages(s) && Tracking(s) && Located(s)
    ensures Tracking(Apply(s, l))
  {}

  lemma LocatedKept(s: State, l: Label)
    requires Stages(s) && Located(s) && Shutting(s)
    ensures Located(Apply(s, l))
  {
    assert l.Hangup? && l.c in s.copying ==> Worker(s, l.c);
  }

  lemma ShuttingKept(s: State, l: Label)
    requires Tracking(s) && Located(s) && Shutting(s)
    ensures Shutting(Apply(s, l))
  {}

  lemma StepKeeps(s: State, l: Label)
    requires Inv(s)
    ensures Inv(Apply(s, l))
  {
    StagesKept(s, l);
    CountsKept(s, l);
    TrackingKept(s, l);
    LocatedKept(s, l);
    ShuttingKept(s, l);
  }

  lemma {:induction false} RunKeeps(s: State, ls: seq<Label>)
    requires Inv(s)
    ensures Inv(Exec(s, ls))
  {
    if ls != [] {
      RunKeeps(s, ls[..|ls| - 1]);
      StepKeeps(Exec(s, ls[..|ls| - 1]), ls[|ls| - 1]);
    }
  }

  /** In every interleaving: slots are the live workers plus the one in hand and never
      exceed the limit, the wait group counts the workers not yet done, and no accepted
      connection is lost: it is in hand, being copied, or closed. */
  lemma NothingLeaks(ls: seq<Label>, c: Conn)
    ensures var s := Exec(START, ls);
      && s.slots == Workers(s) + (if HoldsSlot(s.loop) then 1 else 0) <= 4096
      && s.gate.proxies == Workers(s) - |s.finished| + (if s.loop.Admitted? then 1 else 0)
      && (c < s.next ==> InHand(s, c) || c in s.copying || c in s.hungUp)
  {
    RunKeeps(START, ls);
  }

  // ----- Shutdown -----

  /** Once the flag is set nothing is admitted and the wait group never grows, so that
      waiting for it cannot race with an addition. */
  lemma {:induction false} NoAdmissionAfterClose(s: State, ls: seq<Label>)
    requires s.gate.closed
    ensures Exec(s, ls).gate.closed && Exec(s, ls).admitted == s.admitted
    ensures Exec(s, ls).gate.proxies <= s.gate.proxies
  {
    if ls != [] {
      NoAdmissionAfterClose(s, ls[..|ls| - 1]);
    }
  }

  /** When CloseActiveConnections has run after Close, every connection that was ever
      admitted is closed; and when the wait returns, no worker is left in the set or
      copying. */
  lemma ShutdownClosesEverything(ls: seq<Label>)
    requires Exec(START, ls).closer.Swept?
    ensures var s := Exec(START, ls);
      && s.admitted <= s.hungUp
      && (s.gate.proxies == 0 ==>
            s.gate.connections == {} && s.copying == s.closing == s.untracked == {} && !s.loop.Admitted?)
  {
    RunKeeps(START, ls);
  }

  /** Work left for the accept loop. */
  function LoopRank(l: Loop): nat {
    match l
    case Stopped => 0
    case Waiting => 1
    case Dropping(_) => 2
    case Refused(_) => 3
    case Admitted(_) => 6
    case HasSlot(_) => 7
    case HasBackend(_) => 8
    case Accepted(_) => 9
  }

  /** Work left for loop and workers together. */
  function Rank(s: State): nat {
    LoopRank(s.loop) + 4 * |s.copying| + 3 * |s.closing| + 2 * |s.untracked| + |s.finished|
  }

  predicate ListenerGone(s: State) { !s.closer.Open? && !s.closer.Flagged? }

  lemma LoopDrains(s: State, l: Label)
    requires Counts(s) && ListenerGone(s) && LoopLabel(l) && !l.Spawn? && Apply(s, l) != s
    ensures LoopRank(Apply(s, l).loop) < LoopRank(s.loop)
  {}

  lemma ListenerStaysGone(s: State, l: Label)
    requires ListenerGone(s)
    ensures ListenerGone(Apply(s, l))
    ensures !LoopLabel(l) && !WorkerLabel(l) ==> Apply(s, l).loop == s.loop
  {}

  /** With the listener closed every step of loop or workers uses up some of it. */
  lemma DrainStep(s: State, l: Label)
    requires Stages(s) && Counts(s) && ListenerGone(s) && Apply(s, l) != s
    ensures ListenerGone(Apply(s, l))
    ensures if LoopLabel(l) || WorkerLabel(l) then Rank(Apply(s, l)) < Rank(s) else Rank(Apply(s, l)) == Rank(s)
  {
    ListenerStaysGone(s, l);
    match l
    case Spawn => SpawnCounts(s);
    case Hangup(c) => HangupCounts(s, c);
    case Untrack(c) => UntrackCounts(s, c);
    case Finish(c) => FinishCounts(s, c);
    case Leave(c) => LeaveCounts(s, c);
    case _ =>
      OtherCounts(s, l);
      if LoopLabel(l) {
        LoopDrains(s, l);
      }
  }

  /** The steps that loop and workers really take along a run. */
  function Taken(s: State, ls: seq<Label>): nat {
    if ls == [] then 0 else
    var before := Exec(s, ls[..|ls| - 1]);
    var l := ls[|ls| - 1];
    Taken(s, ls[..|ls| - 1]) + if Apply(before, l) != before && (LoopLabel(l) || WorkerLabel(l)) then 1 else 0
  }

  /** Whatever the interleaving, loop and workers take at most `Rank` further steps. */
  lemma {:induction false} DrainIsBounded(s: State, ls: seq<Label>)
    requires Inv(s) && ListenerGone(s)
    ensures Taken(s, ls) + Rank(Exec(s, ls)) <= Rank(s) && ListenerGone(Exec(s, ls))
  {
    if ls != [] {
      var front := ls[..|ls| - 1];
      DrainIsBounded(s, front);
      RunKeeps(s, front);
      if Apply(Exec(s, front), ls[|ls| - 1]) != Exec(s, front) {
        DrainStep(Exec(s, front), ls[|ls| - 1]);
      }
    }
  }

  /** And they do not get stuck: until the loop has stopped and all workers are gone,
      one of them can take a step. */
  lemma DrainNeverStuck(s: State) returns (l: Label)
    requires s.gate.closed && (!s.loop.Stopped? || Workers(s) > 0)
    ensures (LoopLabel(l) || WorkerLabel(l)) && Apply(s, l) != s
  {
    match s.loop
    case Waiting => l := AcceptError;
    case Accepted(_) => l := Resolve(false);
    case HasBackend(_) => l := Acquire;
    case HasSlot(_) => l := Begin;
    case Admitted(_) => l := Spawn;
    case Refused(_) => l := Release;
    case Dropping(_) => l := Drop;
    case Stopped =>
      if s.copying != {} {
        var c :| c in s.copying;
        l := Hangup(c);
      } else if s.closing != {} {
        var c :| c in s.closing;
        l := Untrack(c);
      } else if s.untracked != {} {
        var c :| c in s.untracked;
        l := Finish(c);
      } else {
        assert s.finished != {};
        var c :| c in s.finished;
        l := Leave(c);
      }
  }

  // ----- The runtime itself -----

  /** What becomes of a connection just accepted, if nobody interrupts the accept loop:
      steps that do not apply change nothing. */
  function Handled(s: State, available: bool): State {
    SpawnStep(DropStep(ReleaseStep(BeginStep(AcquireStep(ResolveStep(s, available))))))
  }

  /** After Close, and after CloseActiveConnections as well. */
  function Shut(s: State): State { s.(gate := s.gate.(closed := true), closer := ListenerClosed) }

  function Emptied(s: State): State { s.(closer := Swept, hungUp := s.hungUp + s.gate.connections) }

  /** A worker from the end of its copying on. */
  function Worked(s: State, c: Conn): State { LeaveStep(FinishStep(UntrackStep(HangupStep(s, c), c), c), c) }

  lemma HandledKeeps(s: State, available: bool)
    requires Inv(s)
    ensures Inv(Handled(s, available))
  {
    hide Inv, ResolveStep, AcquireStep, BeginStep, ReleaseStep, DropStep, SpawnStep;
    var s1 := Apply(s, Resolve(available));
    StepKeeps(s, Resolve(available));
    var s2 := Apply(s1, Acquire);
    StepKeeps(s1, Acquire);
    var s3 := Apply(s2, Begin);
    StepKeeps(s2, Begin);
    var s4 := Apply(s3, Release);
    StepKeeps(s3, Release);
    StepKeeps(s4, Drop);
    StepKeeps(Apply(s4, Drop), Spawn);
  }

  lemma EndedKeeps(s: State, c: Conn)
    requires Inv(s)
    ensures Inv(FinishStep(UntrackStep(s, c), c))
  {
    hide Inv, UntrackStep, FinishStep;
    StepKeeps(s, Untrack(c));
    StepKeeps(UntrackStep(s, c), Finish(c));
  }

  lemma OutermostKeep(s: State, c: Conn)
    requires Inv(s)
    ensures Inv(HangupStep(s, c)) && Inv(LeaveStep(s, c))
  {
    hide Inv, HangupStep, LeaveStep;
    StepKeeps(s, Hangup(c));
    StepKeeps(s, Leave(c));
  }

  lemma ClosedKeeps(s: State)
    requires Inv(s)
    ensures Inv(Apply(Apply(s, SetFlag), CloseListener))
  {
    hide Inv;
    StepKeeps(s, SetFlag);
    StepKeeps(Apply(s, SetFlag), CloseListener);
  }

  lemma FlagMeansClosing(s: State)
    requires Inv(s)
    ensures s.gate.closed <==> !s.closer.Open?
  {}

  lemma TrackedWorker(s: State, c: Conn)
    requires Inv(s) && c in s.copying
    ensures !s.loop.Admitted? || s.loop.conn != c
    ensures c !in s.closing && c !in s.untracked && c !in s.finished
  {}

  lemma SweptMeansClosed(s: State)
    requires Inv(s) && s.closer.Swept?
    ensures s.admitted <= s.hungUp
  {}

  lemma HandledIs(s: State, available: bool)
    requires s.loop.Accepted?
    ensures var c := s.loop.conn;
      if available && s.slots < 4096 && !s.gate.closed then
        Handled(s, available) == s.(loop := Waiting, slots := s.slots + 1, gate := Begun(s.gate, c),
                                    admitted := s.admitted + {c}, copying := s.copying + {c})
      else
        Handled(s, available) == s.(loop := Waiting, hungUp := s.hungUp + {c})
  {}

  lemma InHandIsNew(s: State)
    requires Inv(s) && s.loop.Accepted?
    ensures Stages(s) && !Worker(s, s.loop.conn) && s.loop.conn !in s.gate.connections && s.slots == Workers(s) <= 4096
  {}

  lemma HandledCounts(s: State)
    requires s.loop.Accepted? && !s.gate.closed && Stages(s) && !Worker(s, s.loop.conn)
    requires s.loop.conn !in s.gate.connections && s.slots == Workers(s) <= 4096
    ensures var (c, s') := (s.loop.conn, Handled(s, true));
      if Workers(s) < 4096 then c in s'.copying && c in s'.gate.connections && Workers(s') == Workers(s) + 1
      else c in s'.hungUp && c !in s'.gate.connections && Workers(s') == 4096
  {
    hide Handled;
    HandledIs(s, true);
    StageSizes(s, s.loop.conn);
  }

  /** In every reachable state: while there is a backend and no shutdown, the connection in
      hand gets a worker if there are fewer than 4096, and with 4096 it is closed. */
  lemma AdmittedBelowLimit(ls: seq<Label>)
    requires Exec(START, ls).loop.Accepted? && !Exec(START, ls).gate.closed
    ensures var s := Exec(START, ls);
      var (c, s') := (s.loop.conn, Handled(s, true));
      if Workers(s) < 4096 then c in s'.copying && c in s'.gate.connections && Workers(s') == Workers(s) + 1
      else Workers(s) == 4096 && c in s'.hungUp && c !in s'.gate.connections && Workers(s') == 4096
  {
    hide Inv, Exec, Handled, Workers, Stages, Worker;
    StartKeeps();
    RunKeeps(START, ls);
    InHandIsNew(Exec(START, ls));
    HandledCounts(Exec(START, ls));
  }

  lemma StartKeeps()
    ensures Inv(START)
  {}

  // ----- The limit can be reached -----

  /** The labels of accepting a connection and handling it; those that do not apply change
      nothing. */
  const ONE_MORE: seq<Label> := [Accept, Resolve(true), Acquire, Begin, Release, Drop, Spawn]

  lemma ExecSplit(s: State, ls: seq<Label>, l: Label)
    ensures Exec(s, ls + [l]) == Apply(Exec(s, ls), l)
  {
    assert (ls + [l])[..|ls|] == ls;
  }

  lemma HandlingIsRun(s0: State, ls: seq<Label>)
    ensures Exec(s0, ls + ONE_MORE) == Handled(AcceptStep(Exec(s0, ls)), true)
  {
    hide AcceptStep, ResolveStep, AcquireStep, BeginStep, ReleaseStep, DropStep, SpawnStep;
    var a := ls + [Accept];
    var b := a + [Resolve(true)] + [Acquire] + [Begin];
    ExecSplit(s0, ls, Accept);
    ExecSplit(s0, a, Resolve(true));
    ExecSplit(s0, a + [Resolve(true)], Acquire);
    ExecSplit(s0, a + [Resolve(true)] + [Acquire], Begin);
    ExecSplit(s0, b, Release);
    ExecSplit(s0, b + [Release], Drop);
    ExecSplit(s0, b + [Release] + [Drop], Spawn);
    assert ls + ONE_MORE == b + [Release] + [Drop] + [Spawn];
  }

  /** Nothing but `n` workers, all copying, and room for connections. */
  predicate Busy(s: State, n: nat) {
    && s.loop.Waiting? && s.closer.Open? && !s.gate.closed && s.slots == n && |s.copying| == n
    && forall c: Conn :: c in s.copying ==> c < s.next
  }

  lemma OneMore(s: State, n: nat)
    requires Busy(s, n) && n < 4096
    ensures Busy(Handled(AcceptStep(s), true), n + 1)
  {
    hide Handled;
    var s1 := AcceptStep(s);
    HandledIs(s1, true);
    assert s.next !in s.copying;
    assert |s.copying + {s.next}| == n + 1;
  }

  /** Any number of workers up to 4096 can be at work at the same time. */
  lemma {:induction false} ManyWorkers(n: nat) returns (ls: seq<Label>)
    requires n <= 4096
    ensures Busy(Exec(START, ls), n)
  {
    if n == 0 {
      ls := [];
    } else {
      var before := ManyWorkers(n - 1);
      ls := before + ONE_MORE;
      HandlingIsRun(START, before);
      OneMore(Exec(START, before), n - 1);
    }
  }

  /** The ghost field `s` is the state of the transition system; every method moves it
      by the labels its code executes. */
  class ServiceRuntime {
    var closed: bool
    var connections: set<Conn>
    var proxies: int
    /** Tokens in the semaphore. */
    var slots: int
    var listening: bool
    /** Client sockets that have been closed. */
    var hungUp: set<Conn>
    ghost var s: State

    ghost predicate Valid() reads this {
      && Inv(s) && s.gate == Gate(closed, connections, proxies) && s.slots == slots && s.hungUp == hungUp
      && (listening <==> s.closer.Open? || s.closer.Flagged?)
    }

    constructor ()
      ensures Valid() && s == START
    {
      closed, connections, proxies, slots, listening, hungUp := false, {}, 0, 0, true, {};
      s := START;
    }

    /** The closed flag is tested under the lock that Close sets it under. */
    method BeginProxy(c: Conn) returns (ok: bool)
      requires Valid() && s.loop == HasSlot(c)
      modifies this
      ensures Valid() && s == BeginStep(old(s)) && (ok <==> s.loop.Admitted?)
    {
      hide Inv;
      StepKeeps(s, Begin);
      s := BeginStep(s);
      if closed {
        return false;
      }
      connections := connections + {c};
      proxies := proxies + 1;
      ok := true;
    }

    /** Untracks the connection and counts the worker off; both labels, in this order. */
    method EndProxy(c: Conn)
      requires Valid() && c in s.closing
      modifies this
      ensures Valid() && s == FinishStep(UntrackStep(old(s), c), c) && c in s.finished
    {
      hide Inv;
      EndedKeeps(s, c);
      connections := connections - {c};
      proxies := proxies - 1;
      s := FinishStep(UntrackStep(s, c), c);
    }

    /** The body of the accept loop for a connection in hand: a worker if there is a
        backend, a free slot and no shutdown, and otherwise a closed socket and no slot
        lost. */
    method HandleAccepted(c: Conn, available: bool) returns (spawned: bool)
      requires Valid() && s.loop == Accepted(c)
      modifies this
      ensures Valid() && s == Handled(old(s), available) && s.loop.Waiting?
      ensures spawned <==> available && old(slots) < 4096 && !old(closed)
      ensures if spawned then c in s.copying && slots == old(slots) + 1
              else c in hungUp && slots == old(slots) && s.gate == old(s).gate
    {
      hide Inv;
      HandledKeeps(s, available);
      ghost var s0 := s;
      spawned := false;
      if !available {
        hungUp := hungUp + {c};
        s := Handled(s0, available);
        return;
      }
      if !(slots < SLOTS) {
        hungUp := hungUp + {c};
        s := Handled(s0, available);
        return;
      }
      StepKeeps(s, Resolve(available));
      StepKeeps(ResolveStep(s, available), Acquire);
      slots := slots + 1;
      s := AcquireStep(ResolveStep(s, available));
      var ok := BeginProxy(c);
      if !ok {
        slots, hungUp := slots - 1, hungUp + {c};
        s := SpawnStep(DropStep(ReleaseStep(s)));
        return;
      }
      s := SpawnStep(DropStep(ReleaseStep(s)));
      spawned := true;
    }

    /** A worker: the proxy closes the socket when it returns, then the worker is counted
        off and gives its slot back. */
    method Work(c: Conn)
      requires Valid() && c in s.copying
      modifies this
      ensures Valid() && s == Worked(old(s), c)
      ensures c in hungUp && c !in connections && slots == old(slots) - 1 && proxies == old(proxies) - 1
    {
      hide Inv, Apply;
      TrackedWorker(s, c);
      OutermostKeep(s, c);
      hungUp := hungUp + {c};
      s := HangupStep(s, c);
      EndProxy(c);
      OutermostKeep(s, c);
      slots := slots - 1;
      s := LeaveStep(s, c);
    }

    /** Sets the flag, then closes the listener; a second call does nothing. */
    method Close()
      requires Valid() && !s.closer.Flagged?
      modifies this
      ensures Valid() && s == Apply(Apply(old(s), SetFlag), CloseListener)
      ensures closed && !listening && (old(closed) ==> s == old(s))
      ensures old(s).closer.Open? ==> s == Shut(old(s))
    {
      hide Inv;
      FlagMeansClosing(s);
      ClosedKeeps(s);
      s := Apply(Apply(s, SetFlag), CloseListener);
      if closed {
        return;
      }
      closed := true;
      listening := false;
    }

    /** Copies the set under the lock, then closes the copies one by one. Called after
        Close, it leaves no connection open that was ever admitted. */
    method CloseActiveConnections()
      requires Valid() && s.closer.ListenerClosed?
      modifies this
      ensures Valid() && s == Emptied(old(s)) && s.admitted <= hungUp
    {
      hide Inv;
      var todo := connections;
      StepKeeps(s, Snapshot);
      s := Apply(s, Snapshot);
      while todo != {}
        invariant Valid() && todo <= old(connections)
        invariant s == old(s).(closer := Hanging(todo), hungUp := old(hungUp) + (old(connections) - todo))
      {
        var c :| c in todo;
        StepKeeps(s, HangupOne(c));
        hungUp := hungUp + {c};
        s := Apply(s, HangupOne(c));
        todo := todo - {c};
      }
      StepKeeps(s, SweepDone);
      s := Apply(s, SweepDone);
      SweptMeansClosed(s);
    }
  }

  ghost predicate Distinct(rts: seq<ServiceRuntime>) {
    forall i, j :: 0 <= i < j < |rts| ==> rts[i] != rts[j]
  }

  method CloseAll(rts: seq<ServiceRuntime>)
    requires Distinct(rts) && forall i :: 0 <= i < |rts| ==> rts[i].Valid() && rts[i].s.closer.Open?
    modifies rts
    ensures forall i :: 0 <= i < |rts| ==> rts[i].Valid() && rts[i].s == Shut(old(rts[i].s))
  {
    hide Inv, ServiceRuntime.Valid, Shut, Apply;
    for k := 0 to |rts|
      invariant forall i :: 0 <= i < k ==> rts[i].Valid() && rts[i].s == Shut(old(rts[i].s))
      invariant forall i :: k <= i < |rts| ==> rts[i].Valid() && rts[i].s == old(rts[i].s)
    {
      rts[k].Close();
    }
  }

  method HangUpAll(rts: seq<ServiceRuntime>)
    requires Distinct(rts) && forall i :: 0 <= i < |rts| ==> rts[i].Valid() && rts[i].s.closer.ListenerClosed?
    modifies rts
    ensures forall i :: 0 <= i < |rts| ==>
      rts[i].Valid() && rts[i].s == Emptied(old(rts[i].s)) && rts[i].s.admitted <= rts[i].hungUp
  {
    hide Inv, ServiceRuntime.Valid, Emptied;
    for k := 0 to |rts|
      invariant forall i :: 0 <= i < k ==>
        rts[i].Valid() && rts[i].s == Emptied(old(rts[i].s)) && rts[i].s.admitted <= rts[i].hungUp
      invariant forall i :: k <= i < |rts| ==> rts[i].Valid() && rts[i].s == old(rts[i].s)
    {
      rts[k].CloseActiveConnections();
    }
  }

  /** Shutdown of all runtimes: every listener is closed before any connection is, and
      then every connection that any of them ever admitted is closed. */
  method ShutdownRuntimes(rts: seq<ServiceRuntime>)
    requires Distinct(rts) && forall i :: 0 <= i < |rts| ==> rts[i].Valid() && rts[i].s.closer.Open?
    modifies rts
    ensures forall i :: 0 <= i < |rts| ==>
      && rts[i].Valid() && rts[i].s == Emptied(Shut(old(rts[i].s)))
      && rts[i].s.admitted == old(rts[i].s.admitted) <= rts[i].hungUp
  {
    hide Inv, ServiceRuntime.Valid;
    CloseAll(rts);
    HangUpAll(rts);
  }
}
