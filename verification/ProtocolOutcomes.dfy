/** How undisturbed attempts end: a successful one is established, a failed one is cleaned up, a reverse
    connection is reported to whoever waits for it, and closing a session begins with its owner. */
module ProtocolOutcomes {
  import opened Wrappers
  import opened SessionStates
  import opened Registries
  import opened RoutingTables
  import opened Drivers
  import opened Protocol
  import opened ProtocolSteps
  import opened ProtocolTheorems
  import opened ProtocolProgress
  import opened ProtocolClosing
  import opened ProtocolPromises

  /** A wait for the finish ends when nothing is going on any more, one for the end moreover not at success; a wait
      for the first message also ends when the peer has answered the first one, and a wait for a reverse connection
      also at its verdict, and neither waits for a view that is being closed. */
  lemma EndsWhenOver(what: WaitFor, s: SessionState)
    ensures Ends(what, s) <==>
            match what
            case Finish => !s.Busy() && !s.Closing?
            case End => !s.Busy() && !s.Closing? && !s.Established?
            case FirstMessage =>
              || (!s.Busy() && !s.Established?)
              || (s.Outgoing? && s.init == ChallengeHandshake) || (s.Incoming? && s.init == ChallengeHandshake)
              || (s.ReverseConnection? && s.reverse.InProgress? && s.reverse.init == ChallengeHandshake)
            case ReverseVerdict => (!s.Busy() && !s.Established?) || (s.ReverseConnection? && s.reverse.Finished?)
  {
  }

  // ---------------------------------------------------------------- one step of the drop handler

  /** Permit `me` is in the phase, in possession of its unclosed generation, which is in state `s`. */
  predicate Stands(w: World, me: Id, phase: Phase, s: SessionState) {
    && me in w.permits && Current(w.reg, w.permits[me].snap) && w.permits[me].phase == phase
    && w.reg.cells[w.permits[me].snap.cell].state == s && !s.Closing? && !s.Closed?
  }

  /** The same permit, with the tables and the closing tasks as they were. */
  predicate SamePlace(w: World, w': World, me: Id) {
    && me in w.permits && me in w'.permits && w'.permits[me].snap == w.permits[me].snap
    && w'.permits[me].kind == w.permits[me].kind && w'.tab == w.tab && w'.closers == w.closers
  }

  predicate CanStep(w: World, me: Id, pick: Option<Addr>, spawn: Id) {
    me in w.permits && spawn !in w.closers && PickOk(w.tab, w.permits[me].snap.gen, pick)
  }

  lemma LettingGo(w: World, me: Id, result: Outcome, s: SessionState)
    requires Stands(w, me, Phase.Driving(Done(result)), s)
    ensures Enabled(w, DroppingPermit(me))
    ensures var w' := Step(w, DroppingPermit(me));
            SamePlace(w, w', me) && w'.reg == w.reg && Stands(w', me, Dropping(Check, result), s)
  {
  }

  lemma Checking(w: World, me: Id, pick: Option<Addr>, spawn: Id, result: Outcome, s: SessionState)
    requires Stands(w, me, Dropping(Check, result), s) && CanStep(w, me, pick, spawn)
    ensures Enabled(w, DropStepping(me, pick, spawn))
    ensures var w' := Step(w, DropStepping(me, pick, spawn));
            && SamePlace(w, w', me) && w'.reg == w.reg
            && Stands(w', me, Dropping(if w.permits[me].kind.AcceptReverse? then FinishReverse
                                       else if result.Success? then Forget else Fail1, result), s)
  {
    DropCheckIs(w, me, pick, spawn);
  }

  lemma Forgetting(w: World, me: Id, pick: Option<Addr>, spawn: Id, result: Outcome, s: SessionState)
    requires Stands(w, me, Dropping(Forget, result), s) && CanStep(w, me, pick, spawn)
    ensures Enabled(w, DropStepping(me, pick, spawn))
    ensures var w' := Step(w, DropStepping(me, pick, spawn)); var c := w.permits[me].snap.cell;
            && SamePlace(w, w', me) && Stands(w', me, Dropping(Publish, result), s)
            && w'.reg == w.reg.(cells := w.reg.cells[c := w.reg.cells[c].(handles := [])])
  {
  }

  /** A request that the table allows is granted. */
  lemma Asking(w: World, me: Id, pick: Option<Addr>, spawn: Id, s: SessionState, t: SessionState)
    requires me in w.permits && w.permits[me].phase.Dropping? && CanStep(w, me, pick, spawn)
    requires Stands(w, me, w.permits[me].phase, s) && DropRequest(w.permits[me]) == To(t) && s.Allowed(t)
    requires var step := w.permits[me].phase.step; step.Publish? || step.Fail1? || step.FinishReverse?
    ensures Enabled(w, DropStepping(me, pick, spawn))
    ensures var w' := Step(w, DropStepping(me, pick, spawn)); var p := w.permits[me];
            && SamePlace(w, w', me) && w'.reg == SetState(w.reg, p.snap.cell, t)
            && w'.permits[me].phase == if p.phase.step.Fail1? then Dropping(Clean1, p.phase.result) else Dropped
  {
    assert Try(w.reg, w.permits[me].snap, To(t)) == (SetState(w.reg, w.permits[me].snap.cell, t), true);
  }

  // ---------------------------------------------------------------- success

  /** The permit is dropped, its session established and announced, and no abort handle is left. */
  predicate EndsEstablished(w: World, w': World, me: Id, n: SessionRef)
    requires me in w.permits && w.permits[me].snap.cell in w.reg.cells
  {
    var c := w.permits[me].snap.cell;
    && me in w'.permits && w'.permits[me].phase.Dropped? && Current(w'.reg, w.permits[me].snap)
    && w'.reg.cells[c].state == Established(n) && w'.reg.cells[c].handles == []
    && w'.reg.cells[c].log == w.reg.cells[c].log + [Established(n)]
  }

  lemma SuccessSteps(w: World, me: Id, pick: Option<Addr>, spawn: Id, n: SessionRef, s: SessionState)
    requires Stands(w, me, Phase.Driving(Done(Success(n))), s) && s.EstablishReady() && CanStep(w, me, pick, spawn)
    requires !w.permits[me].kind.AcceptReverse?
    ensures Enabled(w, DroppingPermit(me))
    ensures var w1 := Step(w, DroppingPermit(me)); var step := DropStepping(me, pick, spawn);
            && Enabled(w1, step) && Enabled(Step(w1, step), step) && Enabled(Step(Step(w1, step), step), step)
            && EndsEstablished(w, Step(Step(Step(w1, step), step), step), me, n)
  {
    var step := DropStepping(me, pick, spawn);
    LettingGo(w, me, Success(n), s);
    var w1 := Step(w, DroppingPermit(me));
    Checking(w1, me, pick, spawn, Success(n), s);
    var w2 := Step(w1, step);
    Forgetting(w2, me, pick, spawn, Success(n), s);
    var w3 := Step(w2, step);
    Asking(w3, me, pick, spawn, s, Established(n));
  }

  lemma FourSteps(w: World, a: Op, b: Op)
    requires Enabled(w, a) && Enabled(Step(w, a), b) && Enabled(Step(Step(w, a), b), b)
    requires Enabled(Step(Step(Step(w, a), b), b), b)
    ensures IsRun(w, [a, b, b, b]) && Run(w, [a, b, b, b]) == Step(Step(Step(Step(w, a), b), b), b)
  {
    ThreeSteps(w, a, b, b);
    RunSnoc(w, [a, b, b], b);
    assert [a, b, b] + [b] == [a, b, b, b];
  }

  /** An attempt that has succeeded in its own unclosed generation and whose permit is dropped undisturbed ends with
      the session established and announced, and no abort handle left. */
  lemma UndisturbedSuccess(w: World, me: Id, pick: Option<Addr>, spawn: Id, n: SessionRef)
    requires Reachable(w) && Mine(w, me) && !w.permits[me].kind.AcceptReverse? && CanStep(w, me, pick, spawn)
    requires w.permits[me].phase == Phase.Driving(Done(Success(n)))
    ensures var step := DropStepping(me, pick, spawn); IsRun(w, [DroppingPermit(me), step, step, step])
    ensures var step := DropStepping(me, pick, spawn);
            EndsEstablished(w, Run(w, [DroppingPermit(me), step, step, step]), me, n)
  {
    HolderStands(w, me, Success(n));
    SuccessRun(w, me, pick, spawn, n, w.reg.cells[w.permits[me].snap.cell].state);
  }

  lemma SuccessRun(w: World, me: Id, pick: Option<Addr>, spawn: Id, n: SessionRef, s: SessionState)
    requires Stands(w, me, Phase.Driving(Done(Success(n))), s) && s.EstablishReady() && CanStep(w, me, pick, spawn)
    requires !w.permits[me].kind.AcceptReverse?
    ensures var step := DropStepping(me, pick, spawn); IsRun(w, [DroppingPermit(me), step, step, step])
    ensures var step := DropStepping(me, pick, spawn);
            EndsEstablished(w, Run(w, [DroppingPermit(me), step, step, step]), me, n)
  {
    SuccessSteps(w, me, pick, spawn, n, s);
    FourSteps(w, DroppingPermit(me), DropStepping(me, pick, spawn));
  }

  /** A holder that is done finds its view ready to be established, or at least busy. */
  lemma HolderStands(w: World, me: Id, result: Outcome)
    requires Reachable(w) && Mine(w, me) && !w.permits[me].kind.AcceptReverse?
    requires w.permits[me].phase == Phase.Driving(Done(result))
    ensures var s := w.reg.cells[w.permits[me].snap.cell].state;
            Stands(w, me, Phase.Driving(Done(result)), s) && s.Busy() && (result.Success? ==> s.EstablishReady())
  {
    ReachableInv(w);
    MineAgrees(w, me);
  }

  // ---------------------------------------------------------------- failure

  lemma Cleaning(w: World, me: Id, pick: Option<Addr>, spawn: Id, result: Outcome, s: SessionState)
    requires Stands(w, me, Dropping(Clean1, result), s) && CanStep(w, me, pick, spawn)
    ensures Enabled(w, DropStepping(me, pick, spawn))
    ensures var w' := Step(w, DropStepping(me, pick, spawn)); var c := w.permits[me].snap.cell;
            && SamePlace(w, w', me) && Stands(w', me, Dropping(Unregister1, result), s)
            && w'.reg == w.reg.(cells := w.reg.cells[c := w.reg.cells[c].(handles := [])])
  {
  }

  lemma Unregistering1(w: World, me: Id, pick: Option<Addr>, spawn: Id, result: Outcome, s: SessionState)
    requires Stands(w, me, Dropping(Unregister1, result), s) && CanStep(w, me, pick, spawn)
    ensures Enabled(w, DropStepping(me, pick, spawn))
    ensures var w' := Step(w, DropStepping(me, pick, spawn));
            && me in w'.permits && w'.permits[me].phase.Dropped?
            && w'.reg == Retire(w.reg, w.permits[me].snap)
            && w'.tab == SweepGeneration(w.tab, w.permits[me].snap.gen)
  {
  }

  /** The failure is announced, no abort handle is left, and the generation is about to be unregistered. */
  predicate HasFailed(w: World, w': World, me: Id)
    requires me in w.permits && w.permits[me].snap.cell in w.reg.cells
  {
    var c := w.permits[me].snap.cell;
    && SamePlace(w, w', me) && Stands(w', me, Dropping(Unregister1, Failure), FailedEstablish)
    && w'.reg.cells[c].handles == [] && w'.reg.cells[c].log == w.reg.cells[c].log + [FailedEstablish]
  }

  lemma FailureSteps(w: World, me: Id, pick: Option<Addr>, spawn: Id, s: SessionState)
    requires Stands(w, me, Phase.Driving(Done(Failure)), s) && s.Busy() && CanStep(w, me, pick, spawn)
    requires !w.permits[me].kind.AcceptReverse?
    ensures Enabled(w, DroppingPermit(me))
    ensures var w1 := Step(w, DroppingPermit(me)); var step := DropStepping(me, pick, spawn);
            && Enabled(w1, step) && Enabled(Step(w1, step), step) && Enabled(Step(Step(w1, step), step), step)
            && HasFailed(w, Step(Step(Step(w1, step), step), step), me)
  {
    var step := DropStepping(me, pick, spawn);
    LettingGo(w, me, Failure, s);
    var w1 := Step(w, DroppingPermit(me));
    Checking(w1, me, pick, spawn, Failure, s);
    var w2 := Step(w1, step);
    Asking(w2, me, pick, spawn, s, FailedEstablish);
    var w3 := Step(w2, step);
    Cleaning(w3, me, pick, spawn, Failure, FailedEstablish);
  }

  /** An attempt that has failed in its own unclosed generation and whose permit is dropped undisturbed announces the
      failure, lets go of the abort handles, and ends with the generation retired and swept. */
  lemma UndisturbedFailure(w: World, me: Id, pick: Option<Addr>, spawn: Id)
    requires Reachable(w) && Mine(w, me) && !w.permits[me].kind.AcceptReverse? && CanStep(w, me, pick, spawn)
    requires w.permits[me].phase == Phase.Driving(Done(Failure))
    ensures var step := DropStepping(me, pick, spawn); var s := w.permits[me].snap;
            && IsRun(w, [DroppingPermit(me), step, step, step])
            && var w4 := Run(w, [DroppingPermit(me), step, step, step]);
            && HasFailed(w, w4, me) && Enabled(w4, step)
            && var w' := Step(w4, step);
            && me in w'.permits && w'.permits[me].phase.Dropped?
            && s.cell in w'.reg.cells && w'.reg.cells[s.cell].retired && !MentionsGeneration(w'.tab, s.gen)
  {
    HolderStands(w, me, Failure);
    var s, step := w.permits[me].snap, DropStepping(me, pick, spawn);
    FailureSteps(w, me, pick, spawn, w.reg.cells[s.cell].state);
    FourSteps(w, DroppingPermit(me), step);
    var w4 := Run(w, [DroppingPermit(me), step, step, step]);
    Unregistering1(w4, me, pick, spawn, Failure, FailedEstablish);
    SweepsAreComplete(w4.tab, s.gen, 0);
  }

  // ---------------------------------------------------------------- reverse connections

  /** A permit that answers a reverse connection and is dropped undisturbed reports its result, and the holder that
      waits for it goes on with the session that was reported. */
  lemma UndisturbedReverse(w: World, q: Id, me: Id, start: nat, pick: Option<Addr>, spawn: Id, n: SessionRef)
    requires q in w.permits && w.permits[q].kind.AcceptReverse? && CanStep(w, q, pick, spawn)
    requires Stands(w, q, Phase.Driving(Done(Success(n))), ReverseConnection(InProgress(Ready)))
    requires me in w.permits && me != q && w.permits[me].snap == w.permits[q].snap
    requires w.permits[me].phase == Phase.Driving(Await(start)) && start <= |w.reg.cells[w.permits[q].snap.cell].log|
    ensures var step := DropStepping(q, pick, spawn); var c := w.permits[q].snap.cell;
            && IsRun(w, [DroppingPermit(q), step, step])
            && var w3 := Run(w, [DroppingPermit(q), step, step]);
            && q in w3.permits && w3.permits[q].phase.Dropped?
            && w3.reg == SetState(w.reg, c, ReverseConnection(Finished(Success(n))))
            && Goes(w3, me, Go(|w.reg.cells[c].log|), Done(Success(n)))
  {
    var s, step := ReverseConnection(InProgress(Ready)), DropStepping(q, pick, spawn);
    LettingGo(w, q, Success(n), s);
    var w1 := Step(w, DroppingPermit(q));
    Checking(w1, q, pick, spawn, Success(n), s);
    var w2 := Step(w1, step);
    Asking(w2, q, pick, spawn, s, ReverseConnection(Finished(Success(n))));
    OtherPermitsStay(w, w1, w2, Step(w2, step), q, me, pick, spawn);
    HearsVerdict(Step(w2, step), me, start, |w.reg.cells[w.permits[q].snap.cell].log|, n);
    ThreeSteps(w, DroppingPermit(q), step, step);
  }

  /** Given the choice, the task goes to `pc`. */
  predicate Goes(w: World, me: Id, choice: Choice, pc: Pc) {
    && Enabled(w, Op.Driving(me, choice)) && me in Step(w, Op.Driving(me, choice)).permits
    && Step(w, Op.Driving(me, choice)).permits[me].phase == Phase.Driving(pc)
  }

  lemma OtherPermitsStay(w: World, w1: World, w2: World, w3: World, q: Id, me: Id, pick: Option<Addr>, spawn: Id)
    requires me in w.permits && me != q && Enabled(w, DroppingPermit(q)) && w1 == Step(w, DroppingPermit(q))
    requires Enabled(w1, DropStepping(q, pick, spawn)) && w2 == Step(w1, DropStepping(q, pick, spawn))
    requires Enabled(w2, DropStepping(q, pick, spawn)) && w3 == Step(w2, DropStepping(q, pick, spawn))
    ensures me in w3.permits && w3.permits[me] == w.permits[me]
  {
  }

  lemma HearsVerdict(w: World, me: Id, start: nat, i: nat, n: SessionRef)
    requires me in w.permits && w.permits[me].phase == Phase.Driving(Await(start)) && Current(w.reg, w.permits[me].snap)
    requires var log := w.reg.cells[w.permits[me].snap.cell].log;
             start <= i < |log| && log[i] == ReverseConnection(Finished(Success(n)))
    ensures Goes(w, me, Go(i), Done(Success(n)))
  {
    GoodVerdictSucceeds(w.permits[me].kind, start, i, w.reg.cells[w.permits[me].snap.cell].log, n);
  }

  // ---------------------------------------------------------------- closing a session

  /** Closing a session undisturbed begins with its owner: if the session's generation is still registered for its
      peer, that view is moved to Closing before the owners of its routes are collected. */
  lemma ClosingBeginsWithOwner(w: World, session: Session, c: Ref, me: Id, pick: Option<Addr>, next: (NodeId, nat))
    requires Enabled(w, StartClose(session, me)) && HeldIn(w.reg, session.defaultId, session.generation, c)
    ensures var step := CloserStepping(me, pick, next);
            && IsRun(w, [StartClose(session, me), step, step])
            && var w3 := Run(w, [StartClose(session, me), step, step]);
            && w3.reg == SetState(w.reg, c, Closing) && w3.tab == w.tab
            && me in w3.closers && w3.closers[me] == Collecting(session)
  {
    var start, step, s := StartClose(session, me), CloserStepping(me, pick, next), Snap(c, session.generation);
    var w1 := Step(w, start);
    assert w1 == w.(closers := w.closers[me := LookingUp(session)]);
    LookingUpStep(w1, me, pick, next, session, s);
    ClosingOwnerStep(Step(w1, step), me, pick, next, session, s);
    ThreeSteps(w, start, step, step);
  }

  lemma LookingUpStep(w: World, me: Id, pick: Option<Addr>, next: (NodeId, nat), session: Session, s: Snap)
    requires me in w.closers && w.closers[me] == LookingUp(session)
    requires HeldIn(w.reg, session.defaultId, session.generation, s.cell) && s.gen == session.generation
    ensures Enabled(w, CloserStepping(me, pick, next))
    ensures Step(w, CloserStepping(me, pick, next)) == w.(closers := w.closers[me := ClosingOwner(session, s)])
  {
  }

  lemma ClosingOwnerStep(w: World, me: Id, pick: Option<Addr>, next: (NodeId, nat), session: Session, s: Snap)
    requires me in w.closers && w.closers[me] == ClosingOwner(session, s) && Current(w.reg, s)
    ensures Enabled(w, CloserStepping(me, pick, next))
    ensures var w' := Step(w, CloserStepping(me, pick, next));
            && w'.reg == SetState(w.reg, s.cell, Closing) && w'.tab == w.tab
            && me in w'.closers && w'.closers[me] == Collecting(session)
  {
  }

  /** Unregistering a session begins with its owners right away, without closing anything first. */
  lemma UnregisteringCollects(w: World, session: Session, me: Id, pick: Option<Addr>, next: (NodeId, nat))
    requires Enabled(w, StartUnregisterSession(session, me))
    ensures var w1 := Step(w, StartUnregisterSession(session, me)); var step := CloserStepping(me, pick, next);
            && Enabled(w1, step)
            && var w2 := Step(w1, step);
            && w2.reg == w.reg && w2.tab == w.tab && me in w2.closers && w2.closers[me].Retiring?
            && w2.closers[me].session == session
            && forall id: NodeId, gen: nat ::
                 (id, gen) in w2.closers[me].owners <==> ConcernedBy(w.tab, session, id, gen)
  {
    OwnersAreConcerned(w.tab, session);
  }

  // ---------------------------------------------------------------- what takes effect

  /** A session is published exactly while its generation is current and in use: then it is found under its address
      and all its identities; otherwise nothing changes. */
  lemma SessionTakesEffect(w: World, s: Snap, session: Session, routing: Option<Routing>)
    requires Enabled(w, RegisterSession(s, session, routing))
    ensures var w' := Step(w, RegisterSession(s, session, routing));
            if Current(w.reg, s) && (SeenState(w.reg, s).Busy() || SeenState(w.reg, s).Established?) then
              && w'.reg == w.reg && session.remote in w'.tab.sessions && w'.tab.sessions[session.remote] == session
              && Leads(w.tab.p2pNodes, w'.tab.p2pNodes, session.identities, session)
              && (routing.Some? ==> Leads(w.tab.nodes, w'.tab.nodes, session.identities, routing.value))
              && Known(w'.created, session)
            else w' == w
  {
    PublishedIsFound(w.tab, session, routing);
    OpenWhileInUse(w.reg, s, NodeInfo([], [], 0));
  }

  /** A routing is published exactly while its generation is current and in use and its physical session is the one
      its address leads to: then all its identities lead to it; otherwise nothing changes. */
  lemma RoutingTakesEffect(w: World, s: Snap, r: Routing)
    requires Enabled(w, RegisterRouting(s, r))
    ensures var w' := Step(w, RegisterRouting(s, r));
            if && Current(w.reg, s) && (SeenState(w.reg, s).Busy() || SeenState(w.reg, s).Established?)
               && s.gen == r.generation
               && r.route.remote in w.tab.sessions && w.tab.sessions[r.route.remote].ref == r.route.ref
            then
              && w'.reg == w.reg && Leads(w.tab.nodes, w'.tab.nodes, r.identities, r)
              && w'.tab.sessions == w.tab.sessions && w'.tab.p2pNodes == w.tab.p2pNodes
            else w' == w
  {
    RoutingIsFound(w.tab, r);
    OpenWhileInUse(w.reg, s, NodeInfo([], [], 0));
  }

  /** An abort handle is kept with the view exactly while the generation is current and not being closed. */
  lemma HandleTakesEffect(w: World, s: Snap, h: nat)
    requires Enabled(w, AddingHandle(s, h))
    ensures var r := Step(w, AddingHandle(s, h)).reg; var before := HandlesOf(w.reg, s.cell);
            HandlesOf(r, s.cell) ==
              if Current(w.reg, s) && !SeenState(w.reg, s).Closing? && !SeenState(w.reg, s).Closed?
              then before + [h] else before
  {
    HandlesAccountedFor(w.reg, s, h);
  }

  /** Whoever asks for a lock gets a permit for the generation it starts, or waits for the finish of the generation
      that is in the way, with what it has not yet received. */
  lemma LockGrantsOrWaits(w: World, c: Ref, kind: Kind, me: Id, cursor: nat)
    requires Enabled(w, Locking(c, kind, me, cursor))
    ensures var w' := Step(w, Locking(c, kind, me, cursor)); var cell := w.reg.cells[c];
            if !cell.retired && (cell.state.Closed? || cell.state.FailedEstablish?) then
              && me in w'.permits && w'.permits[me] == Permit(Snap(c, w.reg.nextGen), kind, Phase.Driving(Entry(kind)))
              && Current(w'.reg, w'.permits[me].snap) && w'.waiters == w.waiters
            else if !cell.retired && kind.Accept? && cell.state == ReverseConnection(Awaiting) then
              && me in w'.permits && w'.waiters == w.waiters
              && w'.permits[me] == Permit(Snap(c, cell.epoch), AcceptReverse, Phase.Driving(Entry(AcceptReverse)))
            else
              && w'.reg == w.reg && w'.permits == w.permits && me in w'.waiters
              && w'.waiters[me] == Waiter(Snap(c, cell.epoch), Finish, cursor, cursor, Fresh)
  {
    var cell := w.reg.cells[c];
    if !cell.retired && (cell.state.Closed? || cell.state.FailedEstablish?) {
      GrantedLock(w, c, kind, me, cursor);
    } else if !cell.retired && kind.Accept? && cell.state == ReverseConnection(Awaiting) {
      AnsweringLock(w, c, kind, me, cursor);
    } else {
      RefusedLock(w, c, kind, me, cursor);
    }
  }

  lemma GrantedLock(w: World, c: Ref, kind: Kind, me: Id, cursor: nat)
    requires Live(w.reg, c) && (w.reg.cells[c].state.Closed? || w.reg.cells[c].state.FailedEstablish?)
    ensures var w' := DoLock(w, c, kind, me, cursor);
            && w'.permits == w.permits[me := Permit(Snap(c, w.reg.nextGen), kind, Phase.Driving(Entry(kind)))]
            && Current(w'.reg, Snap(c, w.reg.nextGen)) && w'.waiters == w.waiters
  {
    LockVerdict(w.reg, c, kind.Accept?);
  }

  lemma AnsweringLock(w: World, c: Ref, kind: Kind, me: Id, cursor: nat)
    requires Live(w.reg, c) && kind.Accept? && w.reg.cells[c].state == ReverseConnection(Awaiting)
    ensures var w' := DoLock(w, c, kind, me, cursor); var s := Snap(c, w.reg.cells[c].epoch);
            && w'.permits == w.permits[me := Permit(s, AcceptReverse, Phase.Driving(Entry(AcceptReverse)))]
            && w'.waiters == w.waiters
  {
    LockVerdict(w.reg, c, true);
  }

  lemma RefusedLock(w: World, c: Ref, kind: Kind, me: Id, cursor: nat)
    requires c in w.reg.cells
    requires var cell := w.reg.cells[c];
             cell.retired || (&& !cell.state.Closed? && !cell.state.FailedEstablish?
                              && (kind.Accept? ==> cell.state != ReverseConnection(Awaiting)))
    ensures DoLock(w, c, kind, me, cursor) ==
            w.(waiters := w.waiters[me := Waiter(Snap(c, w.reg.cells[c].epoch), Finish, cursor, cursor, Fresh)])
  {
    LockVerdict(w.reg, c, kind.Accept?);
  }

  /** A new waiter hears what is announced from then on, and first looks at the present state. */
  lemma WaiterHearsFromNow(w: World, s: Snap, what: WaitFor, me: Id)
    requires Enabled(w, Subscribing(s, what, me))
    ensures var w1 := Step(w, Subscribing(s, what, me));
            && me in w1.waiters && Unread(w1.reg, w1.waiters[me]) == 0 && Enabled(w1, Reading(me))
            && var w2 := Step(w1, Reading(me));
               var seen := if Current(w.reg, s) then w.reg.cells[s.cell].state else Closed;
            && me in w2.waiters && w2.waiters[me].snap == s && w2.waiters[me].what == what
            && w2.waiters[me].phase == if Ends(what, seen) then Returned(seen) else Waiting
  {
  }

  /** Unregistering a peer retires and sweeps its generation at once. */
  lemma UndisturbedUnregister(w: World, id: NodeId, gen: nat, c: Ref, me: Id, pick: Option<Addr>, next: (NodeId, nat))
    requires HeldIn(w.reg, id, gen, c) && Enabled(w, StartUnregister(id, me)) && PickOk(w.tab, gen, pick)
    ensures var w1 := Step(w, StartUnregister(id, me)); var step := CloserStepping(me, pick, next);
            && Enabled(w1, step)
            && var w2 := Step(w1, step);
            && w2.reg == Retire(w.reg, Snap(c, gen)) && c in w2.reg.cells && w2.reg.cells[c].retired
            && !MentionsGeneration(w2.tab, gen)
  {
    var w1 := Step(w, StartUnregister(id, me));
    assert w1 == w.(closers := w.closers[me := Unregistering(Snap(c, gen))]);
    UnregisteringStep(w1, CloserStepping(me, pick, next), Snap(c, gen));
    SweepsAreComplete(w1.tab, gen, 0);
  }

  /** Disconnecting a peer undisturbed moves its view to Closing, then retires and sweeps its generation. */
  lemma UndisturbedDisconnect(w: World, id: NodeId, gen: nat, c: Ref, me: Id, pick: Option<Addr>, next: (NodeId, nat))
    requires HeldIn(w.reg, id, gen, c) && Enabled(w, StartDisconnect(id, me)) && PickOk(w.tab, gen, pick)
    ensures var step := CloserStepping(me, pick, next);
            && IsRun(w, [StartDisconnect(id, me), step, step])
            && Step(w, StartDisconnect(id, me)).reg == w.reg
            && Step(Step(w, StartDisconnect(id, me)), step).reg == SetState(w.reg, c, Closing)
            && var w3 := Run(w, [StartDisconnect(id, me), step, step]);
            && c in w3.reg.cells && w3.reg.cells[c].retired && w3.reg.cells[c].epoch == gen
            && !MentionsGeneration(w3.tab, gen)
  {
    var start, step, s := StartDisconnect(id, me), CloserStepping(me, pick, next), Snap(c, gen);
    var w1 := Step(w, start);
    assert w1 == w.(closers := w.closers[me := Disconnecting(s)]);
    DisconnectingStep(w1, me, pick, next, s);
    var w2 := Step(w1, step);
    UnregisteringStep(w2, step, s);
    SweepsAreComplete(w2.tab, gen, 0);
    ThreeSteps(w, start, step, step);
  }

  lemma DisconnectingStep(w: World, me: Id, pick: Option<Addr>, next: (NodeId, nat), s: Snap)
    requires me in w.closers && w.closers[me] == Disconnecting(s) && Current(w.reg, s) && PickOk(w.tab, s.gen, pick)
    ensures Enabled(w, CloserStepping(me, pick, next))
    ensures var w' := Step(w, CloserStepping(me, pick, next));
            && w'.reg == SetState(w.reg, s.cell, Closing) && w'.tab == w.tab && me in w'.closers
            && w'.closers[me] == Unregistering(s) && Enabled(w', CloserStepping(me, pick, next))
  {
  }
}
