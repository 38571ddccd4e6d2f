/** Every operation of the protocol keeps the invariant, and therefore every run does. */
module ProtocolSteps {
  import opened Wrappers
  import opened SessionStates
  import opened Registries
  import opened RoutingTables
  import opened Drivers
  import opened Protocol
  import opened ProtocolInvariant

  // ---------------------------------------------------------------- granting a permit

  /** Adding a fresh permit does not disturb the others. */
  lemma PermitBeside(r: Registry, permits: map<Id, Permit>, holder: map<Ref, Id>, me: Id, pm: Permit, p: Id)
    requires p in permits && me !in permits && PermitOk(r, permits, holder, p)
    ensures PermitOk(r, permits[me := pm], holder, p)
  {
  }

  lemma HeldBeside(r: Registry, permits: map<Id, Permit>, holder: map<Ref, Id>, me: Id, pm: Permit)
    requires me !in permits && forall c :: c in r.cells ==> HeldOk(r, permits, holder, c)
    ensures forall c :: c in r.cells ==> HeldOk(r, permits[me := pm], holder, c)
  {
    forall c | c in r.cells ensures HeldOk(r, permits[me := pm], holder, c) {
      assert HeldOk(r, permits, holder, c);
    }
  }

  /** The permit that a current reverse connection belongs to. */
  lemma ReverseOwner(r: Registry, permits: map<Id, Permit>, holder: map<Ref, Id>, c: Ref)
    requires PermitsOk(r, permits, holder) && Live(r, c) && r.cells[c].state.ReverseConnection?
    ensures c in holder && holder[c] in permits
    ensures permits[holder[c]].snap == Snap(c, r.cells[c].epoch) && permits[holder[c]].kind.Resolve?
    ensures ReverseBegun(permits[holder[c]].phase)
    ensures AgreePhase(permits[holder[c]].kind, permits[holder[c]].phase, r.cells[c].state)
    ensures AwaitOk(permits[holder[c]].phase, r.cells[c].state, r.cells[c].log)
  {
    assert HeldOk(r, permits, holder, c);
    assert PermitOk(r, permits, holder, holder[c]);
    ReverseMeansBegun(permits[holder[c]].kind, permits[holder[c]].phase, r.cells[c].state);
  }

  lemma ReverseGrantPermits(r: Registry, permits: map<Id, Permit>, holder: map<Ref, Id>, c: Ref, me: Id)
    requires PermitsOk(r, permits, holder) && Live(r, c) && me !in permits
    requires r.cells[c].state == ReverseConnection(Awaiting)
    ensures var s := ReverseConnection(InProgress(ConnectIntent));
            var pm := Permit(Snap(c, r.cells[c].epoch), AcceptReverse, Phase.Driving(Entry(AcceptReverse)));
            PermitsOk(SetState(r, c, s), permits[me := pm], holder)
  {
    var s := ReverseConnection(InProgress(ConnectIntent));
    var pm := Permit(Snap(c, r.cells[c].epoch), AcceptReverse, Phase.Driving(Entry(AcceptReverse)));
    var permits' := permits[me := pm];
    ReverseOwner(r, permits, holder, c);
    ReverseStepAgrees(permits[holder[c]].kind, permits[holder[c]].phase, r.cells[c].state, s, r.cells[c].log);
    forall p | p in permits' ensures PermitOk(SetState(r, c, s), permits', holder, p) {
      if p != me {
        assert PermitOk(r, permits, holder, p);
        PermitBeside(r, permits, holder, me, pm, p);
        SetStatePermit(r, c, s, permits', holder, p);
      }
    }
    HeldBeside(r, permits, holder, me, pm);
    SetStateHeld(r, c, s, permits', holder);
  }

  /** Earlier permits of the view name older generations. */
  lemma GrantOther(r: Registry, permits: map<Id, Permit>, holder: map<Ref, Id>, c: Ref, s: SessionState, me: Id,
                   pm: Permit, p: Id)
    requires c in r.cells && r.cells[c].epoch < r.nextGen
    requires p in permits && me !in permits && PermitOk(r, permits, holder, p)
    ensures PermitOk(Bump(SetState(r, c, s), c), permits[me := pm], holder[c := me], p)
  {
  }

  lemma GrantUnique(r: Registry, permits: map<Id, Permit>, holder: map<Ref, Id>, me: Id, pm: Permit)
    requires RegistryOk(r) && PermitsOk(r, permits, holder) && me !in permits && pm.snap.gen == r.nextGen
    ensures UniqueGenerations(permits[me := pm])
  {
    forall p | p in permits ensures permits[p].snap.gen < r.nextGen {
      assert PermitOk(r, permits, holder, p);
      assert CellOk(r, permits[p].snap.cell);
    }
  }

  lemma GrantHeld(r: Registry, permits: map<Id, Permit>, holder: map<Ref, Id>, c: Ref, s: SessionState, me: Id,
                  pm: Permit, d: Ref)
    requires c in r.cells && d in r.cells && HeldOk(r, permits, holder, d) && me !in permits
    requires pm.snap == Snap(c, r.nextGen) && !pm.kind.AcceptReverse?
    ensures HeldOk(Bump(SetState(r, c, s), c), permits[me := pm], holder[c := me], d)
  {
  }

  lemma GrantPermits(r: Registry, permits: map<Id, Permit>, holder: map<Ref, Id>, c: Ref, s: SessionState, me: Id,
                     kind: Kind)
    requires RegistryOk(r) && PermitsOk(r, permits, holder) && Live(r, c) && me !in permits
    requires !kind.AcceptReverse?
    requires s == if kind.Accept? then Incoming(ConnectIntent) else Outgoing(ConnectIntent)
    ensures PermitsOk(Bump(SetState(r, c, s), c),
                      permits[me := Permit(Snap(c, r.nextGen), kind, Phase.Driving(Entry(kind)))], holder[c := me])
  {
    var pm := Permit(Snap(c, r.nextGen), kind, Phase.Driving(Entry(kind)));
    var r', permits', holder' := Bump(SetState(r, c, s), c), permits[me := pm], holder[c := me];
    forall p | p in permits' ensures PermitOk(r', permits', holder', p) {
      if p != me {
        assert PermitOk(r, permits, holder, p) && CellOk(r, c);
        GrantOther(r, permits, holder, c, s, me, pm, p);
      }
    }
    forall d | d in r'.cells ensures HeldOk(r', permits', holder', d) {
      assert HeldOk(r, permits, holder, d);
      GrantHeld(r, permits, holder, c, s, me, pm, d);
    }
    GrantUnique(r, permits, holder, me, pm);
  }

  lemma BumpClosers(r: Registry, c: Ref, closers: map<Id, Closer>, closing: map<Ref, Id>)
    requires ClosersOk(r, closers, closing) && c in r.cells && !r.cells[c].state.Closing?
    ensures ClosersOk(Bump(r, c), closers, closing)
  {
    var r' := Bump(r, c);
    forall k | k in closers ensures CloserOk(r', closers[k]) {
      assert CloserOk(r, closers[k]);
    }
    forall d | d in r'.cells ensures ClosingOk(r', closers, closing, d) {
      assert ClosingOk(r, closers, closing, d);
    }
  }

  lemma GrantWaiters(r: Registry, c: Ref, s: SessionState, waiters: map<Id, Waiter>)
    requires WaitersOk(r, waiters) && c in r.cells
    ensures WaitersOk(Bump(SetState(r, c, s), c), waiters)
  {
    AnnouncedWaiters(r, Bump(SetState(r, c, s), c), waiters, c, s);
  }

  lemma GrantKeeps(w: World, c: Ref, kind: Kind, me: Id)
    requires Inv(w) && Live(w.reg, c) && me !in w.permits && !kind.AcceptReverse?
    requires w.reg.cells[c].state.Closed? || w.reg.cells[c].state.FailedEstablish?
    ensures var s := if kind.Accept? then Incoming(ConnectIntent) else Outgoing(ConnectIntent);
            Inv(w.(reg := Bump(SetState(w.reg, c, s), c),
                   permits := w.permits[me := Permit(Snap(c, w.reg.nextGen), kind, Phase.Driving(Entry(kind)))],
                   holder := w.holder[c := me]))
  {
    var s := if kind.Accept? then Incoming(ConnectIntent) else Outgoing(ConnectIntent);
    SetStateOk(w.reg, c, s);
    BumpOk(SetState(w.reg, c, s), c);
    GrantPermits(w.reg, w.permits, w.holder, c, s, me, kind);
    GrantWaiters(w.reg, c, s, w.waiters);
    SetStateClosers(w.reg, c, s, w.closers, w.closing);
    BumpClosers(SetState(w.reg, c, s), c, w.closers, w.closing);
  }

  lemma ReverseGrantKeeps(w: World, c: Ref, me: Id)
    requires Inv(w) && Live(w.reg, c) && me !in w.permits
    requires w.reg.cells[c].state == ReverseConnection(Awaiting)
    ensures var s := ReverseConnection(InProgress(ConnectIntent));
            var pm := Permit(Snap(c, w.reg.cells[c].epoch), AcceptReverse, Phase.Driving(Entry(AcceptReverse)));
            Inv(w.(reg := SetState(w.reg, c, s), permits := w.permits[me := pm]))
  {
    var s := ReverseConnection(InProgress(ConnectIntent));
    SetStateOk(w.reg, c, s);
    ReverseGrantPermits(w.reg, w.permits, w.holder, c, me);
    SetStateWaiters(w.reg, c, s, w.waiters);
    SetStateClosers(w.reg, c, s, w.closers, w.closing);
  }

  lemma WaiterKeeps(w: World, me: Id, x: Waiter)
    requires Inv(w) && WaiterOk(w.reg, x)
    ensures Inv(w.(waiters := w.waiters[me := x]))
  {
    var waiters := w.waiters[me := x];
    forall i | i in waiters ensures WaiterOk(w.reg, waiters[i]) {
      assert i != me ==> WaiterOk(w.reg, w.waiters[i]);
    }
  }

  lemma LockKeeps(w: World, c: Ref, kind: Kind, me: Id, cursor: nat)
    requires Inv(w) && Enabled(w, Locking(c, kind, me, cursor))
    ensures Inv(DoLock(w, c, kind, me, cursor))
  {
    LockVerdict(w.reg, c, kind.Accept?);
    var cell := w.reg.cells[c];
    if !cell.retired && (cell.state.Closed? || cell.state.FailedEstablish?) {
      GrantKeeps(w, c, kind, me);
    } else if !cell.retired && kind.Accept? && cell.state == ReverseConnection(Awaiting) {
      ReverseGrantKeeps(w, c, me);
    } else {
      WaiterKeeps(w, me, Waiter(Snap(c, cell.epoch), Finish, cursor, cursor, Fresh));
    }
  }

  // ---------------------------------------------------------------- driving

  /** A reverse permit can only ask inside the reverse handshake. */
  lemma ReverseAsks(w: World, me: Id, req: Request)
    requires Inv(w) && me in w.permits && w.permits[me].kind.AcceptReverse?
    requires (req.ToIncoming? && req.init != ConnectIntent)
             || (req.To? && req.state.ReverseConnection? && req.state.reverse.Finished?)
    requires Try(w.reg, w.permits[me].snap, req).1
    ensures var s := w.reg.cells[w.permits[me].snap.cell].state;
            s.ReverseConnection? && Resolved(s, req).ReverseConnection?
  {
    var p := w.permits[me];
    assert PermitOk(w.reg, w.permits, w.holder, me);
    assert PermitOk(w.reg, w.permits, w.holder, w.holder[p.snap.cell]);
  }

  /** A request of a reverse permit, accepted or not. */
  lemma ReverseAskKeeps(w: World, me: Id, req: Request, accepted: Phase, refused: Phase)
    requires Inv(w) && me in w.permits && w.permits[me].kind.AcceptReverse?
    requires (req.ToIncoming? && req.init != ConnectIntent)
             || (req.To? && req.state.ReverseConnection? && req.state.reverse.Finished?)
    requires ReversePhaseOk(accepted) && ReversePhaseOk(refused)
    requires ReverseBegun(w.permits[me].phase) ==> ReverseBegun(accepted) && ReverseBegun(refused)
    ensures Inv(DoAsk(w, me, req, accepted, refused))
  {
    var s := w.permits[me].snap;
    assert PermitOk(w.reg, w.permits, w.holder, me);
    var after := DoAsk(w, me, req, accepted, refused);
    if Try(w.reg, s, req).1 {
      ReverseAsks(w, me, req);
      ReverseKeeps(w, me, accepted, Resolved(w.reg.cells[s.cell].state, req));
      assert Inv(after);
    } else {
      PhaseKeeps(w, me, refused);
      assert after == SetPhase(w, me, refused);
    }
  }

  lemma DriveReverseKeeps(w: World, me: Id, choice: Choice)
    requires Inv(w) && Enabled(w, Op.Driving(me, choice)) && w.permits[me].kind.AcceptReverse?
    ensures Inv(DoDrive(w, me, choice))
  {
    var p := w.permits[me];
    assert PermitOk(w.reg, w.permits, w.holder, me);
    NextReverse(p.phase.pc, choice, Heard(w.reg, p.snap));
    NextShape(p.kind, p.phase.pc, choice, Heard(w.reg, p.snap));
    match Next(p.kind, p.phase.pc, choice, Heard(w.reg, p.snap)) {
      case Stop =>
      case Internal(pc) => PhaseKeeps(w, me, Phase.Driving(pc));
      case Ask(req, accepted, refused) =>
        ReverseAskKeeps(w, me, req, Phase.Driving(accepted), Phase.Driving(refused));
    }
  }

  /** The permit is the recorded one of a current generation that is not being closed. */
  predicate Mine(w: World, me: Id) {
    && me in w.permits
    && Current(w.reg, w.permits[me].snap)
    && !w.reg.cells[w.permits[me].snap.cell].state.Closing?
  }

  /** What the invariant says of an ordinary permit in its own unclosed generation. */
  lemma MineAgrees(w: World, me: Id)
    requires Inv(w) && Mine(w, me) && !w.permits[me].kind.AcceptReverse?
    ensures var cell := w.reg.cells[w.permits[me].snap.cell];
            && AgreePhase(w.permits[me].kind, w.permits[me].phase, cell.state)
            && AwaitOk(w.permits[me].phase, cell.state, cell.log)
  {
    assert PermitOk(w.reg, w.permits, w.holder, me);
  }

  /** An ordinary permit in a superseded, retired or closing generation may move freely. */
  lemma LostPhaseKeeps(w: World, me: Id, phase: Phase)
    requires Inv(w) && me in w.permits && !w.permits[me].kind.AcceptReverse? && !Mine(w, me)
    requires ReverseBegun(w.permits[me].phase) ==> ReverseBegun(phase)
    ensures Inv(SetPhase(w, me, phase))
  {
    assert PermitOk(w.reg, w.permits, w.holder, me);
    PhaseKeeps(w, me, phase);
  }

  lemma MinePhaseKeeps(w: World, me: Id, phase: Phase)
    requires Inv(w) && Mine(w, me) && !w.permits[me].kind.AcceptReverse?
    requires ReverseBegun(w.permits[me].phase) ==> ReverseBegun(phase)
    requires var cell := w.reg.cells[w.permits[me].snap.cell];
             AgreePhase(w.permits[me].kind, phase, cell.state) && AwaitOk(phase, cell.state, cell.log)
    ensures Inv(SetPhase(w, me, phase))
  {
    assert PermitOk(w.reg, w.permits, w.holder, me);
    PhaseKeeps(w, me, phase);
  }

  lemma MoveOfHolderKeeps(w: World, me: Id, move: Move)
    requires Inv(w) && me in w.permits && !w.permits[me].kind.AcceptReverse?
    requires MoveShape(w.permits[me].phase, move)
    requires Mine(w, me) ==> var cell := w.reg.cells[w.permits[me].snap.cell];
                             GoodMove(w.permits[me].kind, move, cell.state, cell.log)
    ensures Inv(DoMove(w, me, move))
  {
    var c := w.permits[me].snap.cell;
    match move {
      case Stop =>
      case Internal(pc) =>
        if Mine(w, me) {
          MinePhaseKeeps(w, me, Phase.Driving(pc));
        } else {
          LostPhaseKeeps(w, me, Phase.Driving(pc));
        }
      case Ask(req, accepted, refused) =>
        if Mine(w, me) {
          HolderKeeps(w, me, Phase.Driving(accepted), Resolved(w.reg.cells[c].state, req));
        } else {
          LostPhaseKeeps(w, me, Phase.Driving(refused));
        }
    }
  }

  lemma DriveKeeps(w: World, me: Id, choice: Choice)
    requires Inv(w) && Enabled(w, Op.Driving(me, choice))
    ensures Inv(DoDrive(w, me, choice))
  {
    if w.permits[me].kind.AcceptReverse? {
      DriveReverseKeeps(w, me, choice);
    } else {
      var p := w.permits[me];
      NextShape(p.kind, p.phase.pc, choice, Heard(w.reg, p.snap));
      if Mine(w, me) {
        MineAgrees(w, me);
        var cell := w.reg.cells[p.snap.cell];
        NextGood(p.kind, p.phase.pc, choice, cell.state, cell.log);
      }
      MoveOfHolderKeeps(w, me, Next(p.kind, p.phase.pc, choice, Heard(w.reg, p.snap)));
    }
  }

  // ---------------------------------------------------------------- giving up and dropping

  lemma AbortKeeps(w: World, me: Id)
    requires Inv(w) && Enabled(w, Aborting(me))
    ensures Inv(SetPhase(w, me, Phase.Driving(Done(Failure))))
  {
    var p := w.permits[me];
    if p.kind.AcceptReverse? {
      assert PermitOk(w.reg, w.permits, w.holder, me);
      PhaseKeeps(w, me, Phase.Driving(Done(Failure)));
    } else if Mine(w, me) {
      MineAgrees(w, me);
      DrivingMeansBusy(p.kind, p.phase.pc, w.reg.cells[p.snap.cell].state);
      MinePhaseKeeps(w, me, Phase.Driving(Done(Failure)));
    } else {
      LostPhaseKeeps(w, me, Phase.Driving(Done(Failure)));
    }
  }

  lemma DropKeeps(w: World, me: Id, phase: Phase)
    requires Inv(w) && Enabled(w, DroppingPermit(me))
    requires var pc := w.permits[me].phase.pc; phase == Dropping(Check, if pc.Done? then pc.result else Failure)
    ensures Inv(SetPhase(w, me, phase))
  {
    var p := w.permits[me];
    if p.kind.AcceptReverse? {
      assert PermitOk(w.reg, w.permits, w.holder, me);
      PhaseKeeps(w, me, phase);
    } else if Mine(w, me) {
      MineAgrees(w, me);
      DrivingMeansBusy(p.kind, p.phase.pc, w.reg.cells[p.snap.cell].state);
      MinePhaseKeeps(w, me, phase);
    } else {
      LostPhaseKeeps(w, me, phase);
    }
  }

  /** A request of the drop handler of an ordinary permit. */
  lemma DropAskKeeps(w: World, me: Id, s: SessionState, accepted: Phase, refused: Phase)
    requires Inv(w) && me in w.permits && !w.permits[me].kind.AcceptReverse?
    requires !s.Closing? && !s.Closed? && !Closing.Allowed(s)
    requires ReverseBegun(accepted) && ReverseBegun(refused)
    requires Mine(w, me) ==> var cell := w.reg.cells[w.permits[me].snap.cell];
                             cell.state.Busy() && cell.state.Allowed(s)
                             && AgreePhase(w.permits[me].kind, accepted, s)
                             && AwaitOk(accepted, s, cell.log + [s])
    ensures Inv(DoAsk(w, me, To(s), accepted, refused))
  {
    var after := DoAsk(w, me, To(s), accepted, refused);
    if Mine(w, me) {
      HolderKeeps(w, me, accepted, s);
      assert Inv(after);
    } else {
      LostPhaseKeeps(w, me, refused);
      assert after == SetPhase(w, me, refused);
    }
  }

  lemma FailKeeps(w: World, me: Id, after: Phase)
    requires Inv(w) && me in w.permits && !w.permits[me].kind.AcceptReverse?
    requires after.Dropping? || after.Dropped?
    requires Mine(w, me) ==> w.reg.cells[w.permits[me].snap.cell].state.Busy()
                             && AgreePhase(w.permits[me].kind, after, FailedEstablish)
    ensures Inv(DoAsk(w, me, To(FailedEstablish), after, after))
  {
    DropAskKeeps(w, me, FailedEstablish, after, after);
  }

  // ---------------------------------------------------------------- retirement

  lemma RetirePermit(r: Registry, s: Snap, permits: map<Id, Permit>, holder: map<Ref, Id>, p: Id)
    requires p in permits && PermitOk(r, permits, holder, p)
    ensures PermitOk(Retire(r, s), permits, holder, p)
  {
  }

  lemma RetirePermits(r: Registry, s: Snap, permits: map<Id, Permit>, holder: map<Ref, Id>)
    requires PermitsOk(r, permits, holder)
    ensures PermitsOk(Retire(r, s), permits, holder)
  {
    forall p | p in permits ensures PermitOk(Retire(r, s), permits, holder, p) {
      assert PermitOk(r, permits, holder, p);
      RetirePermit(r, s, permits, holder, p);
    }
    forall c | c in r.cells ensures HeldOk(Retire(r, s), permits, holder, c) {
      assert HeldOk(r, permits, holder, c);
    }
  }

  lemma RetireWaiters(r: Registry, s: Snap, waiters: map<Id, Waiter>)
    requires WaitersOk(r, waiters)
    ensures WaitersOk(Retire(r, s), waiters)
  {
    if Current(r, s) {
      AnnouncedWaiters(r, Retire(r, s), waiters, s.cell, Closed);
    }
  }

  lemma RetireClosing(r: Registry, s: Snap, closers: map<Id, Closer>, closing: map<Ref, Id>, c: Ref)
    requires c in r.cells && ClosingOk(r, closers, closing, c)
    ensures ClosingOk(Retire(r, s), closers, closing, c)
  {
  }

  lemma RetireClosers(r: Registry, s: Snap, closers: map<Id, Closer>, closing: map<Ref, Id>)
    requires ClosersOk(r, closers, closing)
    ensures ClosersOk(Retire(r, s), closers, closing)
  {
    forall k | k in closers ensures CloserOk(Retire(r, s), closers[k]) {
      assert CloserOk(r, closers[k]);
    }
    forall c | c in r.cells ensures ClosingOk(Retire(r, s), closers, closing, c) {
      assert ClosingOk(r, closers, closing, c);
      RetireClosing(r, s, closers, closing, c);
    }
  }

  lemma RetireKeeps(w: World, s: Snap)
    requires Inv(w)
    ensures Inv(w.(reg := Retire(w.reg, s)))
  {
    RetireOk(w.reg, s);
    RetirePermits(w.reg, s, w.permits, w.holder);
    RetireWaiters(w.reg, s, w.waiters);
    RetireClosers(w.reg, s, w.closers, w.closing);
  }

  // ---------------------------------------------------------------- tables and closing tasks

  lemma SweepTables(t: Tables, created: map<Ref, Session>, published: set<Ref>, gen: nat, ref: Ref)
    requires TablesOk(t, created, published)
    ensures TablesOk(SweepGeneration(t, gen), created, published)
    ensures TablesOk(SweepSession(t, ref), created, published)
    ensures TablesOk(t.(nodes := RoutesOtherThan(t.nodes, gen)), created, published)
  {
  }

  /** If task `me` owed the closing of `c`, it still does when it becomes `k`. */
  predicate InheritsDebt(w: World, me: Id, k: Closer, c: Ref) {
    (&& Live(w.reg, c) && w.reg.cells[c].state.Closing?
     && me in w.closers && Owes(w.reg, w.closers[me], c))
    ==> Owes(w.reg, k, c)
  }

  /** A closing task moves on; the obligations it had, it still has. */
  lemma CloserKeeps(w: World, me: Id, k: Closer)
    requires Inv(w) && CloserOk(w.reg, k)
    requires forall c :: InheritsDebt(w, me, k, c)
    ensures Inv(w.(closers := w.closers[me := k]))
  {
    var closers := w.closers[me := k];
    forall i | i in closers ensures CloserOk(w.reg, closers[i]) {
      assert i != me ==> CloserOk(w.reg, w.closers[i]);
    }
    forall c | c in w.reg.cells ensures ClosingOk(w.reg, closers, w.closing, c) {
      assert ClosingOk(w.reg, w.closers, w.closing, c);
      assert InheritsDebt(w, me, k, c);
    }
  }

  lemma UnregisterKeeps(w: World, s: Snap)
    requires Inv(w)
    ensures Inv(Unregistered(w, s))
    ensures !Current(Unregistered(w, s).reg, s)
  {
    RetireKeeps(w, s);
    SweepTables(w.tab, w.created, w.published, s.gen, 0);
  }

  lemma SpawnKeeps(w: World, s: Option<Session>, me: Id)
    requires Inv(w) && me !in w.closers
    ensures Inv(Spawn(w, s, me))
  {
    if s.Some? {
      CloserKeeps(w, me, Collecting(s.value));
    }
  }

  // ---------------------------------------------------------------- the drop handler

  lemma DropCheckIs(w: World, me: Id, pick: Option<Addr>, spawn: Id)
    requires me in w.permits && w.permits[me].phase.Dropping? && w.permits[me].phase.step == Check
    ensures DoDropStep(w, me, pick, spawn) == SetPhase(w, me, NextDrop(w.reg, w.permits[me]))
  {
  }

  lemma DropCheckKeeps(w: World, me: Id)
    requires Inv(w) && me in w.permits && w.permits[me].phase.Dropping? && w.permits[me].phase.step == Check
    ensures Inv(SetPhase(w, me, NextDrop(w.reg, w.permits[me])))
  {
    var p := w.permits[me];
    if p.kind.AcceptReverse? {
      assert PermitOk(w.reg, w.permits, w.holder, me);
      PhaseKeeps(w, me, NextDrop(w.reg, p));
    } else if Mine(w, me) {
      MineAgrees(w, me);
      MinePhaseKeeps(w, me, NextDrop(w.reg, p));
    } else {
      LostPhaseKeeps(w, me, Dropped);
    }
  }

  lemma DropForgetKeeps(w: World, me: Id, after: Phase)
    requires Inv(w) && me in w.permits && !w.permits[me].kind.AcceptReverse? && ReverseBegun(after)
    requires Mine(w, me) ==> AgreePhase(w.permits[me].kind, after, w.reg.cells[w.permits[me].snap.cell].state)
    requires !after.Driving?
    ensures Inv(SetPhase(w, me, after).(reg := ForgetHandles(w.reg, w.permits[me].snap)))
  {
    if Mine(w, me) {
      MinePhaseKeeps(w, me, after);
    } else {
      LostPhaseKeeps(w, me, after);
    }
    ForgetKeeps(SetPhase(w, me, after), w.permits[me].snap);
  }

  lemma DropUnregisterKeeps(w: World, me: Id, pick: Option<Addr>, spawn: Id, after: Phase)
    requires Inv(w) && me in w.permits && !w.permits[me].kind.AcceptReverse? && spawn !in w.closers
    requires !after.Driving?
    ensures var s := w.permits[me].snap;
            Inv(SetPhase(Spawn(Unregistered(w, s), Handed(w, s, pick), spawn), me, after))
  {
    var s := w.permits[me].snap;
    var w' := Unregistered(w, s);
    UnregisterKeeps(w, s);
    SpawnKeeps(w', Handed(w, s, pick), spawn);
    LostPhaseKeeps(Spawn(w', Handed(w, s, pick), spawn), me, after);
  }

  lemma FailStepKeeps(w: World, me: Id, pick: Option<Addr>, spawn: Id)
    requires Inv(w) && Enabled(w, DropStepping(me, pick, spawn)) && !w.permits[me].kind.AcceptReverse?
    requires w.permits[me].phase.step.Fail1?
    ensures Inv(DoDropStep(w, me, pick, spawn))
  {
    var p := w.permits[me];
    if Mine(w, me) {
      MineAgrees(w, me);
      DropAgrees(p.kind, p.phase.step, p.phase.result, w.reg.cells[p.snap.cell].state, 0);
    }
    FailKeeps(w, me, Dropping(Clean1, p.phase.result));
  }

  lemma CleanStepKeeps(w: World, me: Id, pick: Option<Addr>, spawn: Id)
    requires Inv(w) && Enabled(w, DropStepping(me, pick, spawn)) && !w.permits[me].kind.AcceptReverse?
    requires var step := w.permits[me].phase.step; step.Clean1? || step.Forget?
    ensures Inv(DoDropStep(w, me, pick, spawn))
  {
    var p := w.permits[me];
    if Mine(w, me) {
      MineAgrees(w, me);
    }
    DropForgetKeeps(w, me, NextDrop(w.reg, p));
  }

  lemma PublishIsAsk(w: World, me: Id, pick: Option<Addr>, spawn: Id)
    requires me in w.permits && w.permits[me].phase.Dropping? && w.permits[me].phase.step == Publish
    ensures var p := w.permits[me];
            DoDropStep(w, me, pick, spawn) == DoAsk(w, me, DropRequest(p), Dropped, Dropping(Clean2, p.phase.result))
  {
  }

  lemma PublishStepKeeps(w: World, me: Id)
    requires Inv(w) && me in w.permits && !w.permits[me].kind.AcceptReverse?
    requires w.permits[me].phase.Dropping? && w.permits[me].phase.step == Publish
    ensures var p := w.permits[me];
            Inv(DoAsk(w, me, DropRequest(p), Dropped, Dropping(Clean2, p.phase.result)))
  {
    var p := w.permits[me];
    var session := if p.phase.result.Success? then p.phase.result.session else 0;
    if Mine(w, me) {
      MineAgrees(w, me);
      DropAgrees(p.kind, Publish, p.phase.result, w.reg.cells[p.snap.cell].state, session);
    }
    DropAskKeeps(w, me, Established(session), Dropped, Dropping(Clean2, p.phase.result));
  }

  /** In a generation that is lost, the drop handler's last requests are refused. */
  lemma LastRequestRefused(w: World, me: Id, pick: Option<Addr>, spawn: Id)
    requires me in w.permits && w.permits[me].phase.Dropping? && !Mine(w, me)
    requires w.permits[me].phase.step.Fail2? || w.permits[me].phase.step.FinishReverse?
    ensures DoDropStep(w, me, pick, spawn) == SetPhase(w, me, Dropped)
  {
    assert !Try(w.reg, w.permits[me].snap, DropRequest(w.permits[me])).1;
  }

  lemma LastRequestKeeps(w: World, me: Id, pick: Option<Addr>, spawn: Id)
    requires Inv(w) && me in w.permits && w.permits[me].phase.Dropping? && !w.permits[me].kind.AcceptReverse?
    requires w.permits[me].phase.step.Fail2? || w.permits[me].phase.step.FinishReverse?
    ensures Inv(DoDropStep(w, me, pick, spawn))
  {
    assert !Mine(w, me) by {
      if Mine(w, me) {
        MineAgrees(w, me);
      }
    }
    LostPhaseKeeps(w, me, Dropped);
    LastRequestRefused(w, me, pick, spawn);
  }

  /** After a refused publication the generation is lost: the remaining steps only clean up. */
  lemma LastDropStepsKeep(w: World, me: Id, pick: Option<Addr>, spawn: Id)
    requires Inv(w) && Enabled(w, DropStepping(me, pick, spawn)) && !w.permits[me].kind.AcceptReverse?
    requires var step := w.permits[me].phase.step;
             step.Clean2? || step.Unregister2? || step.Fail2? || step.FinishReverse?
    ensures Inv(DoDropStep(w, me, pick, spawn))
  {
    var p := w.permits[me];
    var result := p.phase.result;
    if p.phase.step.Fail2? || p.phase.step.FinishReverse? {
      LastRequestKeeps(w, me, pick, spawn);
    } else {
      if Mine(w, me) {
        MineAgrees(w, me);
        DropAgrees(p.kind, p.phase.step, result, w.reg.cells[p.snap.cell].state, 0);
      }
      if p.phase.step.Clean2? {
        DropForgetKeeps(w, me, Dropping(Unregister2, result));
      } else {
        DropUnregisterKeeps(w, me, pick, spawn, Dropping(Fail2, result));
      }
    }
  }

  lemma FinishReverseIsAsk(w: World, me: Id, pick: Option<Addr>, spawn: Id)
    requires me in w.permits && w.permits[me].phase.Dropping? && w.permits[me].phase.step.FinishReverse?
    ensures DoDropStep(w, me, pick, spawn) == DoAsk(w, me, DropRequest(w.permits[me]), Dropped, Dropped)
  {
  }

  lemma FinishReverseKeeps(w: World, me: Id, pick: Option<Addr>, spawn: Id)
    requires Inv(w) && me in w.permits && w.permits[me].kind.AcceptReverse?
    requires w.permits[me].phase.Dropping? && w.permits[me].phase.step.FinishReverse?
    ensures Inv(DoDropStep(w, me, pick, spawn))
  {
    FinishReverseIsAsk(w, me, pick, spawn);
    ReverseAskKeeps(w, me, DropRequest(w.permits[me]), Dropped, Dropped);
  }

  lemma DropStepKeeps(w: World, me: Id, pick: Option<Addr>, spawn: Id)
    requires Inv(w) && Enabled(w, DropStepping(me, pick, spawn))
    ensures Inv(DoDropStep(w, me, pick, spawn))
  {
    assert PermitOk(w.reg, w.permits, w.holder, me);
    var step := w.permits[me].phase.step;
    if step.Check? {
      DropCheckIs(w, me, pick, spawn);
      DropCheckKeeps(w, me);
    } else if w.permits[me].kind.AcceptReverse? {
      FinishReverseKeeps(w, me, pick, spawn);
    } else if step.Publish? {
      PublishIsAsk(w, me, pick, spawn);
      PublishStepKeeps(w, me);
    } else if step.Fail1? {
      FailStepKeeps(w, me, pick, spawn);
    } else if step.Clean1? || step.Forget? {
      CleanStepKeeps(w, me, pick, spawn);
    } else if step.Unregister1? {
      DropUnregisterKeeps(w, me, pick, spawn, Dropped);
    } else {
      LastDropStepsKeep(w, me, pick, spawn);
    }
  }

  // ---------------------------------------------------------------- waiting

  lemma ReadOk(r: Registry, x: Waiter)
    requires WaiterOk(r, x) && x.phase.Fresh?
    ensures WaiterOk(r, Resume(x, SeenState(r, x.snap)))
  {
  }

  lemma ReceiveOk(r: Registry, x: Waiter)
    requires WaiterOk(r, x) && CellOk(r, x.snap.cell) && x.phase.Waiting?
    ensures WaiterOk(r, DoReceive(r, x))
  {
  }

  lemma ReadKeeps(w: World, me: Id)
    requires Inv(w) && Enabled(w, Reading(me))
    ensures Inv(Step(w, Reading(me)))
  {
    var x := w.waiters[me];
    assert WaiterOk(w.reg, x);
    ReadOk(w.reg, x);
    WaiterKeeps(w, me, Resume(x, SeenState(w.reg, x.snap)));
  }

  lemma ReceiveKeeps(w: World, me: Id)
    requires Inv(w) && Enabled(w, Receiving(me))
    ensures Inv(Step(w, Receiving(me)))
  {
    var x := w.waiters[me];
    assert WaiterOk(w.reg, x);
    assert CellOk(w.reg, x.snap.cell);
    ReceiveOk(w.reg, x);
    WaiterKeeps(w, me, DoReceive(w.reg, x));
  }

  // ---------------------------------------------------------------- closing tasks

  /** Marking a view as closing, by a task that will retire it. */
  lemma BeginClosingClosers(r: Registry, c: Ref, closers: map<Id, Closer>, closing: map<Ref, Id>, me: Id)
    requires ClosersOk(r, closers, closing) && Live(r, c) && me in closers && Owes(r, closers[me], c)
    ensures ClosersOk(SetState(r, c, Closing), closers, closing[c := me])
  {
    var r' := SetState(r, c, Closing);
    forall k | k in closers ensures CloserOk(r', closers[k]) {
      assert CloserOk(r, closers[k]);
    }
    forall d | d in r'.cells ensures ClosingOk(r', closers, closing[c := me], d) {
      assert ClosingOk(r, closers, closing, d);
    }
  }

  lemma BeginClosingPermits(r: Registry, c: Ref, permits: map<Id, Permit>, holder: map<Ref, Id>)
    requires PermitsOk(r, permits, holder) && c in r.cells
    ensures PermitsOk(SetState(r, c, Closing), permits, holder)
  {
    forall p | p in permits ensures PermitOk(SetState(r, c, Closing), permits, holder, p) {
      assert PermitOk(r, permits, holder, p);
      SetStatePermit(r, c, Closing, permits, holder, p);
    }
    SetStateHeld(r, c, Closing, permits, holder);
  }

  lemma BeginClosingKeeps(w: World, s: Snap, me: Id)
    requires Inv(w) && Current(w.reg, s) && me in w.closers && Owes(w.reg, w.closers[me], s.cell)
    ensures Inv(w.(reg := BeginClosing(w.reg, s), closing := w.closing[s.cell := me]))
  {
    BeginClosingOk(w.reg, s);
    BeginClosingPermits(w.reg, s.cell, w.permits, w.holder);
    SetStateWaiters(w.reg, s.cell, Closing, w.waiters);
    BeginClosingClosers(w.reg, s.cell, w.closers, w.closing, me);
  }

  lemma DisconnectStepKeeps(w: World, me: Id, s: Snap, k: Closer)
    requires Inv(w) && me in w.closers && (w.closers[me].Disconnecting? || w.closers[me].ClosingOwner?)
    requires CloserOk(w.reg, k) && (Current(w.reg, s) ==> Owes(w.reg, k, s.cell))
    ensures Inv(BeganClosing(w, me, s).(closers := w.closers[me := k]))
  {
    forall c ensures InheritsDebt(w, me, k, c) { }
    CloserKeeps(w, me, k);
    if Current(w.reg, s) {
      BeginClosingKeeps(w.(closers := w.closers[me := k]), s, me);
    }
  }

  lemma UnregisterStepKeeps(w: World, me: Id, pick: Option<Addr>, next: (NodeId, nat))
    requires Inv(w) && me in w.closers && w.closers[me].Unregistering?
    ensures Inv(DoCloserStep(w, me, pick, next))
  {
    var s := w.closers[me].snap;
    UnregisterKeeps(w, s);
    var w' := Unregistered(w, s);
    var session := Handed(w, s, pick);
    var k := if session.Some? then Collecting(session.value) else Ended;
    forall c ensures InheritsDebt(w', me, k, c) {
      assert !Current(w'.reg, s);
    }
    CloserKeeps(w', me, k);
  }

  lemma LookUpKeeps(w: World, me: Id, pick: Option<Addr>, next: (NodeId, nat))
    requires Inv(w) && me in w.closers && w.closers[me].LookingUp?
    ensures Inv(DoCloserStep(w, me, pick, next))
  {
    var k := AfterLookUp(w.reg, w.closers[me].session);
    forall c ensures InheritsDebt(w, me, k, c) { }
    CloserKeeps(w, me, k);
  }

  /** Looking up the owner that is to be retired finds it. */
  lemma RetiringKeeps(w: World, me: Id, pick: Option<Addr>, next: (NodeId, nat))
    requires Inv(w) && me in w.closers && w.closers[me].Retiring?
    requires w.closers[me].owners != {} && next in w.closers[me].owners
    ensures Inv(DoCloserStep(w, me, pick, next))
  {
    var Retiring(session, owners) := w.closers[me];
    var k := AfterPick(w.reg, session, next, owners - {next});
    forall c ensures InheritsDebt(w, me, k, c) { }
    CloserKeeps(w, me, k);
  }

  lemma SweepKeeps(w: World, me: Id, pick: Option<Addr>, next: (NodeId, nat))
    requires Inv(w) && me in w.closers && w.closers[me].Retiring? && w.closers[me].owners == {}
    ensures Inv(DoCloserStep(w, me, pick, next))
  {
    forall c ensures InheritsDebt(w, me, Ended, c) { }
    CloserKeeps(w, me, Ended);
    SweepTables(w.tab, w.created, w.published, 0, w.closers[me].session.ref);
  }

  lemma RetireOneKeeps(w: World, me: Id, pick: Option<Addr>, next: (NodeId, nat))
    requires Inv(w) && me in w.closers && w.closers[me].RetiringOne?
    ensures Inv(DoCloserStep(w, me, pick, next))
  {
    var RetiringOne(session, s, owners) := w.closers[me];
    var w' := w.(reg := Retire(w.reg, s));
    RetireKeeps(w, s);
    forall c ensures InheritsDebt(w', me, Retiring(session, owners), c) {
      assert !Current(w'.reg, s);
    }
    CloserKeeps(w', me, Retiring(session, owners));
    SweepTables(w.tab, w.created, w.published, s.gen, 0);
  }

  lemma CloserStepKeeps(w: World, me: Id, pick: Option<Addr>, next: (NodeId, nat))
    requires Inv(w) && Enabled(w, CloserStepping(me, pick, next))
    ensures Inv(DoCloserStep(w, me, pick, next))
  {
    assert CloserOk(w.reg, w.closers[me]);
    var w' := DoCloserStep(w, me, pick, next);
    match w.closers[me] {
      case Disconnecting(s) => DisconnectStepKeeps(w, me, s, Unregistering(s)); assert Inv(w');
      case ClosingOwner(session, s) => DisconnectStepKeeps(w, me, s, Collecting(session)); assert Inv(w');
      case Unregistering(_) => UnregisterStepKeeps(w, me, pick, next);
      case LookingUp(_) => LookUpKeeps(w, me, pick, next);
      case Collecting(_) => CollectKeeps(w, me, pick, next);
      case Retiring(_, owners) =>
        if owners == {} {
          SweepKeeps(w, me, pick, next);
        } else {
          RetiringKeeps(w, me, pick, next);
        }
      case RetiringOne(_, _, _) => RetireOneKeeps(w, me, pick, next);
      case Ended =>
    }
  }

  lemma CollectKeeps(w: World, me: Id, pick: Option<Addr>, next: (NodeId, nat))
    requires Inv(w) && me in w.closers && w.closers[me].Collecting?
    ensures Inv(DoCloserStep(w, me, pick, next))
  {
    var session := w.closers[me].session;
    forall c ensures InheritsDebt(w, me, Retiring(session, Owners(w.tab, session)), c) { }
    CloserKeeps(w, me, Retiring(session, Owners(w.tab, session)));
  }

  lemma StartKeeps(w: World, me: Id, k: Closer)
    requires Inv(w) && me !in w.closers && !k.ClosingOwner?
    ensures Inv(w.(closers := w.closers[me := k]))
  {
    forall c ensures InheritsDebt(w, me, k, c) { }
    CloserKeeps(w, me, k);
  }

  // ---------------------------------------------------------------- publication

  lemma PublishSessionOk(t: Tables, created: map<Ref, Session>, published: set<Ref>, session: Session,
                         routing: Option<Routing>)
    requires TablesOk(t, created, published) && session.ref !in created
    requires routing.Some? ==> routing.value.route == session
    ensures TablesOk(PublishSession(t, session, routing), created[session.ref := session],
                     published + (if routing.Some? then {routing.value.ref} else {}))
  {
  }

  lemma PublishRoutingOk(t: Tables, created: map<Ref, Session>, published: set<Ref>, r: Routing)
    requires TablesOk(t, created, published) && Known(created, r.route)
    ensures TablesOk(PublishRouting(t, r), created, published + {r.ref})
  {
  }

  lemma RegisterSessionKeeps(w: World, s: Snap, session: Session, routing: Option<Routing>)
    requires Inv(w) && Enabled(w, RegisterSession(s, session, routing))
    ensures Inv(DoRegisterSession(w, s, session, routing))
  {
    PublishSessionOk(w.tab, w.created, w.published, session, routing);
  }

  lemma RegisterRoutingKeeps(w: World, s: Snap, r: Routing)
    requires Inv(w) && Enabled(w, RegisterRouting(s, r))
    ensures Inv(DoRegisterRouting(w, s, r))
  {
    PublishRoutingOk(w.tab, w.created, w.published, r);
  }

  lemma RefreshKeeps(w: World, s: Snap, id: NodeId, original: Routing, info: NodeInfo, renewed: Routing)
    requires Inv(w) && Enabled(w, Refresh(s, id, original, info, renewed))
    ensures Inv(DoRefresh(w, s, id, original, info, renewed))
  {
    if RefreshCommits(w, s, id, original, info) {
      CommitOk(w.reg, s, info);
      CommitGrew(w.reg, s, info);
      GrewKeeps(w, Commit(w.reg, s, info));
      PublishRoutingOk(w.tab, w.created, w.published, renewed);
    }
  }

  // ---------------------------------------------------------------- all operations, all runs

  lemma GuardKeeps(w: World, id: NodeId, addrs: seq<Addr>, c: Ref)
    requires Inv(w) && c !in w.reg.cells
    ensures Inv(w.(reg := Guard(w.reg, id, addrs, c).0))
  {
    GuardOk(w.reg, id, addrs, c);
    GuardGrew(w.reg, id, addrs, c);
    GrewKeeps(w, Guard(w.reg, id, addrs, c).0);
  }

  lemma UpdateKeeps(w: World, info: NodeInfo, c: Ref)
    requires Inv(w) && c !in w.reg.cells
    ensures Inv(w.(reg := Update(w.reg, info, c).0))
  {
    UpdateOk(w.reg, info, c);
    UpdateGrew(w.reg, info, c);
    GrewKeeps(w, Update(w.reg, info, c).0);
  }

  predicate PermitOp(op: Op) {
    op.Locking? || op.Driving? || op.Aborting? || op.DroppingPermit? || op.DropStepping?
  }

  predicate WaiterOp(op: Op) {
    op.Subscribing? || op.Reading? || op.Receiving?
  }

  predicate CloserOp(op: Op) {
    op.StartDisconnect? || op.StartUnregister? || op.StartClose? || op.StartUnregisterSession? || op.CloserStepping?
  }

  lemma PermitStepKeeps(w: World, op: Op)
    requires Inv(w) && Enabled(w, op) && PermitOp(op)
    ensures Inv(Step(w, op))
  {
    match op {
      case Locking(c, kind, me, cursor) => LockKeeps(w, c, kind, me, cursor);
      case Driving(me, choice) => DriveKeeps(w, me, choice);
      case Aborting(me) => AbortKeeps(w, me);
      case DroppingPermit(me) =>
        var pc := w.permits[me].phase.pc;
        DropKeeps(w, me, Dropping(Check, if pc.Done? then pc.result else Failure));
      case DropStepping(me, pick, spawn) => DropStepKeeps(w, me, pick, spawn);
      case _ =>
    }
  }

  lemma WaiterStepKeeps(w: World, op: Op)
    requires Inv(w) && Enabled(w, op) && WaiterOp(op)
    ensures Inv(Step(w, op))
  {
    match op {
      case Subscribing(s, what, me) =>
        var n := |w.reg.cells[s.cell].log|;
        WaiterKeeps(w, me, Waiter(s, what, n, n, Fresh));
      case Reading(me) => ReadKeeps(w, me);
      case Receiving(me) => ReceiveKeeps(w, me);
      case _ =>
    }
  }

  lemma ClosingStepKeeps(w: World, op: Op)
    requires Inv(w) && Enabled(w, op) && CloserOp(op)
    ensures Inv(Step(w, op))
  {
    match op {
      case StartDisconnect(id, me) => StartKeeps(w, me, Disconnecting(Snapshot(w.reg, w.reg.byId[id])));
      case StartUnregister(id, me) => StartKeeps(w, me, Unregistering(Snapshot(w.reg, w.reg.byId[id])));
      case StartClose(session, me) => StartKeeps(w, me, LookingUp(session));
      case StartUnregisterSession(session, me) => StartKeeps(w, me, Collecting(session));
      case CloserStepping(me, pick, next) => CloserStepKeeps(w, me, pick, next);
      case _ =>
    }
  }

  lemma RegistryStepKeeps(w: World, op: Op)
    requires Inv(w) && Enabled(w, op) && !PermitOp(op) && !WaiterOp(op) && !CloserOp(op)
    ensures Inv(Step(w, op))
  {
    match op {
      case Guarding(id, addrs, c) => GuardKeeps(w, id, addrs, c);
      case Updating(info, c) => UpdateKeeps(w, info, c);
      case AddingHandle(s, h) => RegisterHandleKeeps(w, s, h);
      case DroppingHandles(s) => ForgetKeeps(w, s);
      case RegisterSession(s, session, routing) => RegisterSessionKeeps(w, s, session, routing);
      case RegisterRouting(s, r) => RegisterRoutingKeeps(w, s, r);
      case Refresh(s, id, original, info, renewed) => RefreshKeeps(w, s, id, original, info, renewed);
      case _ =>
    }
  }

  /** Every operation keeps the invariant. */
  lemma StepKeeps(w: World, op: Op)
    requires Inv(w) && Enabled(w, op)
    ensures Inv(Step(w, op))
  {
    if PermitOp(op) {
      PermitStepKeeps(w, op);
    } else if WaiterOp(op) {
      WaiterStepKeeps(w, op);
    } else if CloserOp(op) {
      ClosingStepKeeps(w, op);
    } else {
      RegistryStepKeeps(w, op);
    }
  }

  lemma InitInv()
    ensures Inv(Init)
  {
  }

  /** The invariant holds after every run. */
  lemma {:induction false} RunKeeps(w: World, ops: seq<Op>)
    requires Inv(w) && IsRun(w, ops)
    ensures Inv(Run(w, ops))
    decreases |ops|
  {
    if ops != [] {
      StepKeeps(w, ops[0]);
      RunKeeps(Step(w, ops[0]), ops[1..]);
    }
  }
}
