/** Nothing is left behind: dropped permits, waiters, abandoned reverse attempts and closing tasks. */
module ProtocolProgress {
  import opened Wrappers
  import opened SessionStates
  import opened Registries
  import opened Drivers
  import opened Protocol
  import opened ProtocolInvariant
  import opened ProtocolSteps
  import opened ProtocolTheorems

  // ---------------------------------------------------------------- no stuck generation

  /** Once the drop of an ordinary permit has completed, its generation is superseded or retired,
      established, or owed to a closing task that has not ended. */
  lemma DroppedIsSettled(w: World, me: Id)
    requires Reachable(w) && me in w.permits
    requires !w.permits[me].kind.AcceptReverse? && w.permits[me].phase.Dropped?
    ensures var s := w.permits[me].snap;
            || !Current(w.reg, s)
            || w.reg.cells[s.cell].state.Established?
            || (&& w.reg.cells[s.cell].state.Closing?
                && s.cell in w.closing && w.closing[s.cell] in w.closers
                && Owes(w.reg, w.closers[w.closing[s.cell]], s.cell))
  {
    ReachableInv(w);
    var s := w.permits[me].snap;
    if Mine(w, me) {
      MineAgrees(w, me);
    } else if Current(w.reg, s) {
      assert ClosingOk(w.reg, w.closers, w.closing, s.cell);
    }
  }

  /** When every permit has been dropped and every closing task has ended, no live view is in the
      middle of anything. */
  lemma QuietMeansSettled(w: World, c: Ref)
    requires Reachable(w) && Live(w.reg, c)
    requires forall p :: p in w.permits ==> w.permits[p].phase.Dropped?
    requires forall k :: k in w.closers ==> w.closers[k].Ended?
    ensures w.reg.cells[c].state.Closed? || w.reg.cells[c].state.Established?
  {
    ReachableInv(w);
    assert ClosingOk(w.reg, w.closers, w.closing, c);
    assert HeldOk(w.reg, w.permits, w.holder, c);
    var cell := w.reg.cells[c];
    if !cell.state.Closed? && !cell.state.Closing? {
      MineAgrees(w, w.holder[c]);
    }
  }

  /** A retired view keeps no abort handle: whatever was registered for it was handed over to be aborted,
      forgotten after a success, or refused. */
  lemma RetiredHoldsNoHandles(w: World, c: Ref)
    requires Reachable(w) && c in w.reg.cells && w.reg.cells[c].retired
    ensures w.reg.cells[c].handles == []
  {
    ReachableInv(w);
    assert CellOk(w.reg, c);
  }

  function DropRank(phase: Phase): nat {
    match phase
    case Driving(_) => 7
    case Dropping(Check, _) => 6
    case Dropping(Fail1, _) => 5
    case Dropping(Clean1, _) => 4
    case Dropping(Unregister1, _) => 3
    case Dropping(Forget, _) => 5
    case Dropping(Publish, _) => 4
    case Dropping(Clean2, _) => 3
    case Dropping(Unregister2, _) => 2
    case Dropping(Fail2, _) => 1
    case Dropping(FinishReverse, _) => 1
    case Dropped => 0
  }

  /** A drop completes: every step the drop handler takes brings it closer to the end. */
  lemma DropProgresses(w: World, me: Id, pick: Option<Addr>, spawn: Id)
    requires me in w.permits && w.permits[me].phase.Dropping?
    ensures var w' := DoDropStep(w, me, pick, spawn);
            DropRank(w'.permits[me].phase) < DropRank(w.permits[me].phase)
  {
  }

  /** How far a closing task is from its end: a stage, and the owners still to be visited. */
  function CloseRank(k: Closer): (nat, nat) {
    match k
    case Disconnecting(_) => (4, 0)
    case LookingUp(_) => (4, 0)
    case Unregistering(_) => (3, 0)
    case ClosingOwner(_, _) => (3, 0)
    case Collecting(_) => (2, 0)
    case Retiring(_, owners) => (1, 2 * |owners|)
    case RetiringOne(_, _, owners) => (1, 2 * |owners| + 1)
    case Ended => (0, 0)
  }

  predicate Below(a: (nat, nat), b: (nat, nat)) {
    a.0 < b.0 || (a.0 == b.0 && a.1 < b.1)
  }

  /** A closing task comes to its end: every step it takes lowers its rank. */
  lemma CloserProgresses(w: World, me: Id, pick: Option<Addr>, next: (NodeId, nat))
    requires Enabled(w, CloserStepping(me, pick, next))
    ensures Below(CloseRank(DoCloserStep(w, me, pick, next).closers[me]), CloseRank(w.closers[me]))
  {
    RankFalls(w, w.closers[me], pick, next);
  }

  lemma RankFalls(w: World, k: Closer, pick: Option<Addr>, next: (NodeId, nat))
    requires !k.Ended? && (k.Retiring? && k.owners != {} ==> next in k.owners)
    ensures Below(CloseRank(AfterClosing(w, k, pick, next)), CloseRank(k))
  {
    var after := CloseRank(AfterClosing(w, k, pick, next));
    match k {
      case Disconnecting(_) => assert after.0 < 4;
      case LookingUp(_) => assert after.0 < 4;
      case Unregistering(_) => assert after.0 < 3;
      case ClosingOwner(_, _) => assert after.0 < 3;
      case Collecting(_) => assert after.0 < 2;
      case Retiring(_, owners) =>
        if owners == {} {
          assert after.0 < 1;
        } else {
          assert |owners - {next}| == |owners| - 1;
          assert after.1 < 2 * |owners|;
        }
      case RetiringOne(_, _, owners) => assert after == (1, 2 * |owners|);
    }
  }

  // ---------------------------------------------------------------- no lost wake-up

  /** A waiter whose queue is empty waits for a generation that is still current, in a state that
      does not end the wait, and nothing announced since it subscribed would have ended it. */
  lemma BlockedMissedNothing(w: World, me: Id)
    requires Reachable(w) && Blocked(w, me)
    ensures var x := w.waiters[me];
            && Current(w.reg, x.snap)
            && !Ends(x.what, w.reg.cells[x.snap.cell].state)
            && forall i :: x.start <= i < |w.reg.cells[x.snap.cell].log| ==>
                 !Ends(x.what, w.reg.cells[x.snap.cell].log[i])
  {
    ReachableInv(w);
    assert WaiterOk(w.reg, w.waiters[me]);
  }

  /** Whatever ends a blocked waiter's generation or its wait also wakes it. */
  lemma EndingWakes(w: World, op: Op, me: Id)
    requires Reachable(w) && Enabled(w, op) && Blocked(w, me)
    requires var r := Step(w, op).reg; var x := w.waiters[me];
             !Current(r, x.snap) || Ends(x.what, r.cells[x.snap.cell].state)
    requires me in Step(w, op).waiters && Step(w, op).waiters[me] == w.waiters[me]
    ensures !Blocked(Step(w, op), me)
  {
    ReachableInv(w);
    StepKeeps(w, op);
    assert WaiterOk(Step(w, op).reg, w.waiters[me]);
  }

  /** Whoever waits for a session to finish does not wait in vain: the generation belongs to a permit that
      has not been dropped yet, or to a closing task that still has to retire it. */
  lemma FinishWaiterHasWaker(w: World, me: Id)
    requires Reachable(w) && Blocked(w, me) && w.waiters[me].what.Finish?
    ensures var s := w.waiters[me].snap;
            || (&& s.cell in w.holder && w.holder[s.cell] in w.permits
                && w.permits[w.holder[s.cell]].snap == s && !w.permits[w.holder[s.cell]].phase.Dropped?)
            || (&& s.cell in w.closing && w.closing[s.cell] in w.closers
                && !w.closers[w.closing[s.cell]].Ended? && Owes(w.reg, w.closers[w.closing[s.cell]], s.cell))
  {
    ReachableInv(w);
    var s := w.waiters[me].snap;
    assert WaiterOk(w.reg, w.waiters[me]);
    assert ClosingOk(w.reg, w.closers, w.closing, s.cell);
    assert HeldOk(w.reg, w.permits, w.holder, s.cell);
    if !w.reg.cells[s.cell].state.Closing? {
      MineAgrees(w, w.holder[s.cell]);
    }
  }

  /** How many announcements the waiter has not received yet. */
  function Unread(r: Registry, x: Waiter): int {
    if x.snap.cell in r.cells then |r.cells[x.snap.cell].log| - x.cursor else 0
  }

  /** The waiter's generation goes on, but more announcements are unread than are kept. */
  predicate Behind(r: Registry, x: Waiter) {
    Current(r, x.snap) && Unread(r, x) > CAPACITY
  }

  /** A waiter that is not blocked learns that its generation is over, fails because it is too far behind, or
      receives exactly the next announcement. */
  lemma ReceivingProgresses(w: World, me: Id)
    requires Reachable(w) && Enabled(w, Receiving(me))
    ensures w.waiters[me].snap.cell in w.reg.cells
    ensures var x := w.waiters[me]; var w' := Step(w, Receiving(me)); var log := w.reg.cells[x.snap.cell].log;
            && me in w'.waiters && x.cursor < |log|
            && if Behind(w.reg, x) then w'.waiters[me] == x.(phase := Lagged)
               else var seen := if Current(w.reg, x.snap) then log[x.cursor] else Closed;
                    && w'.waiters[me].cursor == x.cursor + 1
                    && w'.waiters[me].phase == if Ends(x.what, seen) then Returned(seen) else Waiting
  {
    ReachableInv(w);
    assert WaiterOk(w.reg, w.waiters[me]);
  }

  /** Nobody else touches a waiter. */
  lemma WaiterStays(w: World, op: Op, me: Id)
    requires Enabled(w, op) && me in w.waiters && op != Reading(me) && op != Receiving(me)
    ensures me in Step(w, op).waiters && Step(w, op).waiters[me] == w.waiters[me]
  {
    var waiters := Step(w, op).waiters;
    if op.Driving? {
      DriveLeavesWaiters(w, op.me, op.choice);
    } else if op.DropStepping? {
      DropLeavesWaiters(w, w.permits[op.me], op.pick, op.spawn);
    } else if op.CloserStepping? {
      CloserLeavesWaiters(w, op.me, w.closers[op.me]);
    } else if op.Locking? {
      LockVerdict(w.reg, op.c, op.kind.Accept?);
    } else {
      assert me in waiters && waiters[me] == w.waiters[me];
    }
  }

  lemma DriveLeavesWaiters(w: World, me: Id, choice: Choice)
    requires me in w.permits && w.permits[me].phase.Driving?
    ensures DoDrive(w, me, choice).waiters == w.waiters
  {
    var p := w.permits[me];
    match Next(p.kind, p.phase.pc, choice, Heard(w.reg, p.snap)) {
      case Ask(_, _, _) =>
      case _ =>
    }
  }

  lemma UnregisteringLeavesWaiters(w: World, s: Snap, pick: Option<Addr>, spawn: Id)
    ensures Spawn(Unregistered(w, s), Handed(w, s, pick), spawn).waiters == w.waiters
  {
  }

  lemma DropLeavesWaiters(w: World, p: Permit, pick: Option<Addr>, spawn: Id)
    requires p.phase.Dropping?
    ensures DropEffect(w, p, pick, spawn).waiters == w.waiters
  {
    UnregisteringLeavesWaiters(w, p.snap, pick, spawn);
    var waiters := DropEffect(w, p, pick, spawn).waiters;
    match p.phase.step {
      case Check => assert waiters == w.waiters;
      case Clean1 => assert waiters == w.waiters;
      case Clean2 => assert waiters == w.waiters;
      case Forget => assert waiters == w.waiters;
      case Fail1 => assert waiters == w.waiters;
      case Fail2 => assert waiters == w.waiters;
      case Publish => assert waiters == w.waiters;
      case FinishReverse => assert waiters == w.waiters;
      case Unregister1 => assert waiters == w.waiters;
      case Unregister2 => assert waiters == w.waiters;
    }
  }

  lemma CloserLeavesWaiters(w: World, me: Id, k: Closer)
    ensures CloserEffect(w, me, k).waiters == w.waiters
  {
  }

  /** A wait fails because the waiter has lagged behind exactly when the waiter receives while more
      announcements of its current generation are unread than are kept. */
  lemma LagsIffBehind(w: World, op: Op, me: Id)
    requires Enabled(w, op) && me in w.waiters && !w.waiters[me].phase.Lagged?
    ensures me in Step(w, op).waiters
    ensures Step(w, op).waiters[me].phase.Lagged? <==> op == Receiving(me) && Behind(w.reg, w.waiters[me])
  {
    if op != Reading(me) && op != Receiving(me) {
      WaiterStays(w, op, me);
    }
  }

  /** The waiter is at most as far behind as announcements are kept whenever it receives. */
  predicate KeepsUp(w: World, ops: seq<Op>, me: Id)
    requires IsRun(w, ops) && me in w.waiters
    decreases |ops|
  {
    ops == [] ||
      (&& (ops[0] == Receiving(me) ==> !Behind(w.reg, w.waiters[me]))
       && me in Step(w, ops[0]).waiters && KeepsUp(Step(w, ops[0]), ops[1..], me))
  }

  /** Over any run, a wait fails in this way exactly when the waiter does not keep up. */
  lemma {:induction false} NeverLagsIffKeepsUp(w: World, ops: seq<Op>, me: Id)
    requires IsRun(w, ops) && me in w.waiters && !w.waiters[me].phase.Lagged?
    ensures me in Run(w, ops).waiters
    ensures Run(w, ops).waiters[me].phase.Lagged? <==> !KeepsUp(w, ops, me)
    decreases |ops|
  {
    if ops != [] {
      LagsIffBehind(w, ops[0], me);
      if Step(w, ops[0]).waiters[me].phase.Lagged? {
        LaggedForever(Step(w, ops[0]), ops[1..], me);
      } else {
        NeverLagsIffKeepsUp(Step(w, ops[0]), ops[1..], me);
      }
    }
  }

  lemma {:induction false} LaggedForever(w: World, ops: seq<Op>, me: Id)
    requires IsRun(w, ops) && me in w.waiters && w.waiters[me].phase.Lagged?
    ensures me in Run(w, ops).waiters && Run(w, ops).waiters[me].phase.Lagged?
    decreases |ops|
  {
    if ops != [] {
      WaiterStays(w, ops[0], me);
      LaggedForever(Step(w, ops[0]), ops[1..], me);
    }
  }

  lemma TerminalStatesEndWaits(what: WaitFor, s: SessionState)
    requires s.Closed? || s.FailedEstablish?
    ensures Ends(what, s)
  {
  }

  /** The generation is over, has failed or is closed, or is in any other state this waiter waits for. */
  predicate HasEnded(w: World, me: Id)
    requires me in w.waiters
  {
    var x := w.waiters[me];
    !Current(w.reg, x.snap)
    || (var s := w.reg.cells[x.snap.cell].state; s.Closed? || s.FailedEstablish? || Ends(x.what, s))
  }

  predicate AllReceive(ops: seq<Op>, me: Id) {
    forall i :: 0 <= i < |ops| ==> ops[i] == Receiving(me)
  }

  lemma EndedIsNotBlocked(w: World, me: Id)
    requires Inv(w) && me in w.waiters && w.waiters[me].phase.Waiting? && HasEnded(w, me)
    ensures w.waiters[me].snap.cell in w.reg.cells
    ensures w.waiters[me].cursor < |w.reg.cells[w.waiters[me].snap.cell].log|
  {
    var x := w.waiters[me];
    assert WaiterOk(w.reg, x);
    var s := w.reg.cells[x.snap.cell].state;
    if s.Closed? || s.FailedEstablish? {
      TerminalStatesEndWaits(x.what, s);
    }
  }

  /** A waiter with a nonempty queue that is not behind takes the next announcement and changes nothing else. */
  lemma NextReception(w: World, me: Id)
    requires me in w.waiters && w.waiters[me].phase.Waiting? && w.waiters[me].snap.cell in w.reg.cells
    requires w.waiters[me].cursor < |w.reg.cells[w.waiters[me].snap.cell].log|
    ensures !Blocked(w, me) && Enabled(w, Receiving(me))
    ensures var w' := Step(w, Receiving(me)); var x := w.waiters[me];
            && w'.reg == w.reg && me in w'.waiters
            && var x' := w'.waiters[me];
               if Behind(w.reg, x) then x'.phase.Lagged?
               else x'.snap == x.snap && x'.what == x.what && x'.cursor == x.cursor + 1
                    && (x'.phase.Waiting? || x'.phase.Returned?)
  {
    var x := w.waiters[me];
    assert Step(w, Receiving(me)) == w.(waiters := w.waiters[me := DoReceive(w.reg, x)]);
  }

  lemma StaysEnded(w: World, w': World, me: Id)
    requires me in w.waiters && me in w'.waiters && HasEnded(w, me) && w'.reg == w.reg
    requires w'.waiters[me].snap == w.waiters[me].snap && w'.waiters[me].what == w.waiters[me].what
    ensures HasEnded(w', me)
  {
  }

  lemma ReceptionFirst(w: World, me: Id, rest: seq<Op>)
    requires Enabled(w, Receiving(me)) && IsRun(Step(w, Receiving(me)), rest) && AllReceive(rest, me)
    ensures var ops := [Receiving(me)] + rest;
            AllReceive(ops, me) && IsRun(w, ops) && Run(w, ops) == Run(Step(w, Receiving(me)), rest)
  {
    var ops := [Receiving(me)] + rest;
    assert ops[0] == Receiving(me) && ops[1..] == rest;
  }

  /** No wait outlives its reason: once the generation has ended, by whatever means, the waiter is never
      blocked, and receiving no more often than there are announcements it comes to its end. It fails exactly
      if it is already too far behind; otherwise it returns. */
  lemma {:induction false} EndedWaitsReturn(w: World, me: Id) returns (ops: seq<Op>)
    requires Inv(w) && me in w.waiters && w.waiters[me].phase.Waiting? && HasEnded(w, me)
    ensures w.waiters[me].snap.cell in w.reg.cells && !Blocked(w, me)
    ensures AllReceive(ops, me) && |ops| <= Unread(w.reg, w.waiters[me])
    ensures IsRun(w, ops) && me in Run(w, ops).waiters
    ensures var phase := Run(w, ops).waiters[me].phase;
            if Behind(w.reg, w.waiters[me]) then phase.Lagged? else phase.Returned?
    decreases Unread(w.reg, w.waiters[me])
  {
    EndedIsNotBlocked(w, me);
    NextReception(w, me);
    var w' := Step(w, Receiving(me));
    var rest: seq<Op> := [];
    if w'.waiters[me].phase.Waiting? {
      StepKeeps(w, Receiving(me));
      StaysEnded(w, w', me);
      rest := EndedWaitsReturn(w', me);
    }
    ops := [Receiving(me)] + rest;
    ReceptionFirst(w, me, rest);
  }

  // ---------------------------------------------------------------- abandoned reverse attempts

  /** The reverse attempt that permit `q` answers is over: its generation is gone or the holder has
      moved on to something else. */
  predicate Abandoned(w: World, q: Id) {
    && q in w.permits && w.permits[q].kind.AcceptReverse?
    && (Current(w.reg, w.permits[q].snap) ==>
          !w.reg.cells[w.permits[q].snap.cell].state.ReverseConnection?)
  }

  /** Whichever view a transition reaches, it can only enter the reverse method at its beginning. */
  lemma TryEntersReverse(r: Registry, s: Snap, req: Request, c: Ref)
    requires c in r.cells && !r.cells[c].state.ReverseConnection?
    requires !(req.To? && req.state == ReverseConnection(Awaiting))
    ensures !Try(r, s, req).0.cells[c].state.ReverseConnection?
  {
    var t := Try(r, s, req).0;
    if s.cell == c && Try(r, s, req).1 {
      assert t.cells[c].state == Resolved(r.cells[c].state, req);
    }
  }

  /** A holder that has begun its reverse attempt does not begin another. */
  lemma BegunAsksNoReverse(kind: Kind, pc: Pc, choice: Choice, log: seq<SessionState>)
    requires ReverseBegun(Phase.Driving(pc)) || (kind.AcceptReverse? && ReversePhaseOk(Phase.Driving(pc)))
    ensures var move := Next(kind, pc, choice, log);
            move.Ask? ==> !(move.req.To? && move.req.state == ReverseConnection(Awaiting))
  {
  }

  lemma DriveLeavesReverse(w: World, me: Id, choice: Choice, q: Id)
    requires Inv(w) && Abandoned(w, q) && Current(w.reg, w.permits[q].snap)
    requires me in w.permits && w.permits[me].phase.Driving?
    ensures var c := w.permits[q].snap.cell; var r := DoDrive(w, me, choice).reg;
            c in r.cells && !r.cells[c].state.ReverseConnection?
  {
    var p := w.permits[me];
    var c := w.permits[q].snap.cell;
    match Next(p.kind, p.phase.pc, choice, Heard(w.reg, p.snap)) {
      case Ask(req, accepted, refused) =>
        assert DoDrive(w, me, choice).reg == Try(w.reg, p.snap, req).0;
        if p.snap.cell == c && Current(w.reg, p.snap) {
          assert PermitOk(w.reg, w.permits, w.holder, q);
          assert PermitOk(w.reg, w.permits, w.holder, me);
          BegunAsksNoReverse(p.kind, p.phase.pc, choice, Heard(w.reg, p.snap));
          TryEntersReverse(w.reg, p.snap, req, c);
        } else {
          assert Try(w.reg, p.snap, req).0.cells[c] == w.reg.cells[c];
        }
      case _ => assert DoDrive(w, me, choice).reg == w.reg;
    }
  }

  predicate OutOfReverse(r: Registry, c: Ref) {
    c in r.cells && !r.cells[c].state.ReverseConnection?
  }

  lemma SameLivesLeaveReverse(r: Registry, r': Registry, c: Ref)
    requires Grew(r, r') && OutOfReverse(r, c)
    ensures OutOfReverse(r', c)
  {
  }

  lemma LockLeavesReverse(r: Registry, c: Ref, incoming: bool, d: Ref)
    requires c in r.cells && OutOfReverse(r, d)
    ensures OutOfReverse(LockSession(r, View(c, None), incoming).0, d)
  {
    LockVerdict(r, c, incoming);
    var r' := LockSession(r, View(c, None), incoming).0;
    if c == d {
      assert OutOfReverse(r', d);
    } else {
      assert OutOfReverse(r', d);
    }
  }

  lemma LockedRegistry(w: World, c: Ref, kind: Kind, me: Id, cursor: nat)
    requires c in w.reg.cells
    ensures DoLock(w, c, kind, me, cursor).reg == LockSession(w.reg, View(c, None), kind.Accept?).0
  {
    LockVerdict(w.reg, c, kind.Accept?);
  }

  lemma RegistryLeavesReverse(r: Registry, s: Snap, c: Ref)
    requires OutOfReverse(r, c)
    ensures OutOfReverse(ForgetHandles(r, s), c)
    ensures OutOfReverse(Retire(r, s), c)
    ensures OutOfReverse(BeginClosing(r, s), c)
  {
  }

  lemma DropLeavesReverse(w: World, p: Permit, pick: Option<Addr>, spawn: Id, c: Ref)
    requires p.phase.Dropping? && OutOfReverse(w.reg, c)
    ensures OutOfReverse(DropEffect(w, p, pick, spawn).reg, c)
  {
    RegistryLeavesReverse(w.reg, p.snap, c);
    TryEntersReverse(w.reg, p.snap, DropRequest(p), c);
    DropRegistry(w, p, pick, spawn);
  }

  lemma DropRegistry(w: World, p: Permit, pick: Option<Addr>, spawn: Id)
    requires p.phase.Dropping?
    ensures var r := DropEffect(w, p, pick, spawn).reg;
            || r == w.reg || r == ForgetHandles(w.reg, p.snap) || r == Retire(w.reg, p.snap)
            || r == Try(w.reg, p.snap, DropRequest(p)).0
  {
    var r := DropEffect(w, p, pick, spawn).reg;
    match p.phase.step {
      case Check => assert r == w.reg;
      case Clean1 => assert r == ForgetHandles(w.reg, p.snap);
      case Clean2 => assert r == ForgetHandles(w.reg, p.snap);
      case Unregister1 => assert r == Retire(w.reg, p.snap);
      case Unregister2 => assert r == Retire(w.reg, p.snap);
      case Forget => assert r == ForgetHandles(w.reg, p.snap);
      case _ => assert r == Try(w.reg, p.snap, DropRequest(p)).0;
    }
  }

  lemma CloserLeavesReverse(w: World, me: Id, k: Closer, c: Ref)
    requires OutOfReverse(w.reg, c)
    ensures OutOfReverse(CloserEffect(w, me, k).reg, c)
  {
  }

  lemma OtherStepsLeaveReverse(w: World, op: Op, c: Ref)
    requires Enabled(w, op) && OutOfReverse(w.reg, c)
    requires !op.Locking? && !op.Driving? && !op.DropStepping? && !op.CloserStepping?
    ensures OutOfReverse(Step(w, op).reg, c)
  {
    var r := Step(w, op).reg;
    if op.Guarding? {
      GuardGrew(w.reg, op.id, op.addrs, op.c);
      SameLivesLeaveReverse(w.reg, r, c);
    } else if op.Updating? {
      UpdateGrew(w.reg, op.info, op.c);
      SameLivesLeaveReverse(w.reg, r, c);
    } else if op.Refresh? {
      if RefreshCommits(w, op.snap, op.id, op.original, op.info) {
        CommitGrew(w.reg, op.snap, op.info);
        SameLivesLeaveReverse(w.reg, r, c);
      }
    } else if op.AddingHandle? {
      assert OutOfReverse(r, c);
    } else if op.DroppingHandles? {
      RegistryLeavesReverse(w.reg, op.snap, c);
    } else {
      assert r == w.reg;
    }
  }

  lemma StepLeavesReverse(w: World, op: Op, q: Id)
    requires Inv(w) && Enabled(w, op) && Abandoned(w, q) && Current(w.reg, w.permits[q].snap)
    ensures OutOfReverse(Step(w, op).reg, w.permits[q].snap.cell)
  {
    var c := w.permits[q].snap.cell;
    if op.Driving? {
      DriveLeavesReverse(w, op.me, op.choice, q);
    } else if op.DropStepping? {
      DropLeavesReverse(w, w.permits[op.me], op.pick, op.spawn, c);
    } else if op.CloserStepping? {
      CloserLeavesReverse(w, op.me, w.closers[op.me], c);
    } else if op.Locking? {
      LockedRegistry(w, op.c, op.kind, op.me, op.cursor);
      LockLeavesReverse(w.reg, op.c, op.kind.Accept?, c);
    } else {
      OtherStepsLeaveReverse(w, op, c);
    }
  }

  /** Permits are never taken back, and only their progress changes. */
  predicate SamePermit(permits: map<Id, Permit>, permits': map<Id, Permit>, q: Id)
    requires q in permits
  {
    q in permits' && permits'[q].snap == permits[q].snap && permits'[q].kind == permits[q].kind
  }

  lemma PermitStays(w: World, op: Op, q: Id)
    requires Enabled(w, op) && q in w.permits
    ensures SamePermit(w.permits, Step(w, op).permits, q)
  {
    var permits := Step(w, op).permits;
    match op {
      case Locking(c, kind, me, _) =>
        LockVerdict(w.reg, c, kind.Accept?);
        assert SamePermit(w.permits, permits, q);
      case Driving(me, choice) => DriveKeepsPermit(w, me, choice, q);
      case DropStepping(me, pick, spawn) =>
        assert permits == w.permits[me := w.permits[me].(phase := NextDrop(w.reg, w.permits[me]))];
      case CloserStepping(me, _, _) => CloserLeavesPermits(w, me, w.closers[me]);
      case Aborting(_) => assert SamePermit(w.permits, permits, q);
      case DroppingPermit(_) => assert SamePermit(w.permits, permits, q);
      case _ => assert permits == w.permits;
    }
  }

  lemma DriveKeepsPermit(w: World, me: Id, choice: Choice, q: Id)
    requires me in w.permits && w.permits[me].phase.Driving? && q in w.permits
    ensures SamePermit(w.permits, DoDrive(w, me, choice).permits, q)
  {
    var p := w.permits[me];
    match Next(p.kind, p.phase.pc, choice, Heard(w.reg, p.snap)) {
      case Ask(_, _, _) =>
      case _ =>
    }
  }

  lemma CloserLeavesPermits(w: World, me: Id, k: Closer)
    ensures CloserEffect(w, me, k).permits == w.permits
  {
  }

  lemma AbandonedStep(w: World, op: Op, q: Id)
    requires Inv(w) && Enabled(w, op) && Abandoned(w, q)
    ensures Abandoned(Step(w, op), q)
  {
    PermitStays(w, op, q);
    assert PermitOk(w.reg, w.permits, w.holder, q);
    if Current(w.reg, w.permits[q].snap) {
      StepLeavesReverse(w, op, q);
    } else {
      StepLater(w, op);
      assert CellLater(w.reg, w.permits[q].snap.cell, Step(w, op).reg);
      assert CellOk(w.reg, w.permits[q].snap.cell);
    }
  }

  lemma {:induction false} AbandonedForever(w: World, ops: seq<Op>, q: Id)
    requires Inv(w) && IsRun(w, ops) && Abandoned(w, q)
    ensures Abandoned(Run(w, ops), q)
    decreases |ops|
  {
    if ops != [] {
      AbandonedStep(w, ops[0], q);
      StepKeeps(w, ops[0]);
      AbandonedForever(Step(w, ops[0]), ops[1..], q);
    }
  }

  /** An abandoned reverse attempt has no transition left that would be accepted. */
  lemma AbandonedRefused(w: World, q: Id, req: Request)
    requires Inv(w) && Abandoned(w, q)
    requires (req.ToIncoming? && req.init != ConnectIntent)
             || (req.To? && req.state.ReverseConnection? && req.state.reverse.Finished?)
    ensures Try(w.reg, w.permits[q].snap, req) == (w.reg, false)
  {
    var s := w.permits[q].snap;
    if Current(w.reg, s) {
      assert PermitOk(w.reg, w.permits, w.holder, q);
      assert PermitOk(w.reg, w.permits, w.holder, w.holder[s.cell]);
    }
  }

  /** Once the holder has given up its reverse attempt, the permit that answers it can never again change
      the state, whatever it receives and whatever else happens. */
  lemma AbandonedPowerless(w: World, ops: seq<Op>, q: Id, op: Op)
    requires Reachable(w) && IsRun(w, ops) && Abandoned(w, q) && Enabled(Run(w, ops), op)
    requires (op.Driving? || op.DropStepping?) && op.me == q
    ensures Step(Run(w, ops), op).reg == Run(w, ops).reg
  {
    ReachableInv(w);
    AbandonedForever(w, ops, q);
    RunKeeps(w, ops);
    var w' := Run(w, ops);
    assert PermitOk(w'.reg, w'.permits, w'.holder, q);
    if op.Driving? {
      AbandonedDrive(w', q, op.choice);
    } else {
      AbandonedDrop(w', q, op.pick, op.spawn);
    }
  }

  lemma AbandonedDrive(w: World, q: Id, choice: Choice)
    requires Inv(w) && Abandoned(w, q) && w.permits[q].phase.Driving?
    ensures DoDrive(w, q, choice).reg == w.reg
  {
    var p := w.permits[q];
    assert PermitOk(w.reg, w.permits, w.holder, q);
    NextReverse(p.phase.pc, choice, Heard(w.reg, p.snap));
    match Next(p.kind, p.phase.pc, choice, Heard(w.reg, p.snap)) {
      case Ask(req, _, _) => AbandonedRefused(w, q, req);
      case _ =>
    }
  }

  lemma AbandonedDrop(w: World, q: Id, pick: Option<Addr>, spawn: Id)
    requires Inv(w) && Abandoned(w, q) && w.permits[q].phase.Dropping?
    ensures DoDropStep(w, q, pick, spawn).reg == w.reg
  {
    var p := w.permits[q];
    assert PermitOk(w.reg, w.permits, w.holder, q);
    if p.phase.step.FinishReverse? {
      AbandonedRefused(w, q, DropRequest(p));
    }
  }
}
