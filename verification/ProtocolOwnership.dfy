/** Who may change what: a view is moved only by the tasks that act on it, a generation only by its
    holder, and the session of an established view is the one registered for that very generation. */
module ProtocolOwnership {
  import opened Wrappers
  import opened SessionStates
  import opened Registries
  import opened RoutingTables
  import opened Drivers
  import opened Protocol
  import opened ProtocolInvariant
  import opened ProtocolSteps
  import opened ProtocolTheorems
  import opened ProtocolProgress

  // ---------------------------------------------------------------- the view an operation acts on

  function Touches(w: World, op: Op): Option<Ref> {
    if op.Locking? then Some(op.c)
    else if (op.Driving? || op.DropStepping?) && op.me in w.permits then Some(w.permits[op.me].snap.cell)
    else if op.CloserStepping? && op.me in w.closers
            && (w.closers[op.me].Disconnecting? || w.closers[op.me].Unregistering?
                || w.closers[op.me].ClosingOwner? || w.closers[op.me].RetiringOne?)
    then Some(w.closers[op.me].snap.cell)
    else None
  }

  predicate Lives(r: Registry, r': Registry, c: Ref)
    requires c in r.cells
  {
    c in r'.cells && SameLife(r.cells[c], r'.cells[c])
  }

  lemma OtherCellsLive(r: Registry, s: Snap, req: Request, c: Ref)
    requires c in r.cells
    ensures s.cell != c ==>
              Lives(r, Try(r, s, req).0, c) && Lives(r, Retire(r, s), c) && Lives(r, BeginClosing(r, s), c)
    ensures Lives(r, ForgetHandles(r, s), c)
  {
  }

  lemma DriveRegistry(w: World, me: Id, choice: Choice)
    requires me in w.permits && w.permits[me].phase.Driving?
    ensures var p := w.permits[me]; var move := Next(p.kind, p.phase.pc, choice, Heard(w.reg, p.snap));
            DoDrive(w, me, choice).reg == if move.Ask? then Try(w.reg, p.snap, move.req).0 else w.reg
  {
    var p := w.permits[me];
    match Next(p.kind, p.phase.pc, choice, Heard(w.reg, p.snap)) {
      case Ask(_, _, _) =>
      case _ =>
    }
  }

  lemma CloserRegistry(w: World, me: Id, k: Closer)
    ensures CloserEffect(w, me, k).reg ==
            if k.Disconnecting? || k.ClosingOwner? then BeginClosing(w.reg, k.snap)
            else if k.Unregistering? || k.RetiringOne? then Retire(w.reg, k.snap)
            else w.reg
  {
    var r := CloserEffect(w, me, k).reg;
    match k {
      case Disconnecting(s) => assert r == BeginClosing(w.reg, s);
      case ClosingOwner(_, s) => assert r == BeginClosing(w.reg, s);
      case Unregistering(s) => assert r == Retire(w.reg, s);
      case RetiringOne(_, s, _) => assert r == Retire(w.reg, s);
      case Retiring(_, _) => assert r == w.reg;
      case LookingUp(_) => assert r == w.reg;
      case Collecting(_) => assert r == w.reg;
      case Ended => assert r == w.reg;
    }
  }

  lemma QuietLives(w: World, op: Op, c: Ref)
    requires Enabled(w, op) && c in w.reg.cells
    requires !op.Locking? && !op.Driving? && !op.DropStepping? && !op.CloserStepping?
    ensures Lives(w.reg, Step(w, op).reg, c)
  {
    var r := Step(w, op).reg;
    if op.Guarding? {
      GuardGrew(w.reg, op.id, op.addrs, op.c);
      assert Lives(w.reg, r, c);
    } else if op.Updating? {
      UpdateGrew(w.reg, op.info, op.c);
      assert Lives(w.reg, r, c);
    } else if op.Refresh? {
      if RefreshCommits(w, op.snap, op.id, op.original, op.info) {
        CommitGrew(w.reg, op.snap, op.info);
        assert Lives(w.reg, r, c);
      }
    } else if op.AddingHandle? {
      assert Lives(w.reg, r, c);
    } else if op.DroppingHandles? {
      OtherCellsLive(w.reg, op.snap, To(Closed), c);
    } else {
      assert r == w.reg;
    }
  }

  lemma LockLives(r: Registry, d: Ref, incoming: bool, c: Ref)
    requires d in r.cells && c in r.cells && c != d
    ensures Lives(r, LockSession(r, View(d, None), incoming).0, c)
  {
    LockVerdict(r, d, incoming);
  }

  /** Nothing happens to the other views. */
  lemma UntouchedLives(w: World, op: Op, c: Ref)
    requires Enabled(w, op) && c in w.reg.cells && Touches(w, op) != Some(c)
    ensures Lives(w.reg, Step(w, op).reg, c)
  {
    if op.Locking? {
      LockedRegistry(w, op.c, op.kind, op.me, op.cursor);
      LockLives(w.reg, op.c, op.kind.Accept?, c);
    } else if op.Driving? {
      var p := w.permits[op.me];
      DriveRegistry(w, op.me, op.choice);
      var move := Next(p.kind, p.phase.pc, op.choice, Heard(w.reg, p.snap));
      if move.Ask? {
        OtherCellsLive(w.reg, p.snap, move.req, c);
      }
    } else if op.DropStepping? {
      var p := w.permits[op.me];
      DropRegistry(w, p, op.pick, op.spawn);
      OtherCellsLive(w.reg, p.snap, DropRequest(p), c);
    } else if op.CloserStepping? {
      var k := w.closers[op.me];
      CloserRegistry(w, op.me, k);
      if Touches(w, op).Some? {
        OtherCellsLive(w.reg, k.snap, To(Closed), c);
      }
    } else {
      QuietLives(w, op, c);
    }
  }

  // ---------------------------------------------------------------- closing is irrevocable

  /** Retired, or being closed in generation `gen`. */
  predicate Doomed(r: Registry, c: Ref, gen: nat) {
    c in r.cells && (r.cells[c].retired || (r.cells[c].state.Closing? && r.cells[c].epoch == gen))
  }

  lemma TryLeavesDoomed(r: Registry, s: Snap, req: Request, c: Ref, gen: nat)
    requires Doomed(r, c, gen) && !Closing.Allowed(Resolved(Closing, req))
    ensures Doomed(Try(r, s, req).0, c, gen)
  {
  }

  lemma DoomedStep(w: World, op: Op, c: Ref, gen: nat)
    requires Enabled(w, op) && Doomed(w.reg, c, gen)
    ensures Doomed(Step(w, op).reg, c, gen)
  {
    if Touches(w, op) != Some(c) {
      UntouchedLives(w, op, c);
    } else if op.Locking? {
      LockedRegistry(w, c, op.kind, op.me, op.cursor);
      LockVerdict(w.reg, c, op.kind.Accept?);
    } else if op.Driving? {
      var p := w.permits[op.me];
      DriveRegistry(w, op.me, op.choice);
      NextShape(p.kind, p.phase.pc, op.choice, Heard(w.reg, p.snap));
      var move := Next(p.kind, p.phase.pc, op.choice, Heard(w.reg, p.snap));
      if move.Ask? {
        TryLeavesDoomed(w.reg, p.snap, move.req, c, gen);
      }
    } else if op.DropStepping? {
      DropLeavesDoomed(w, w.permits[op.me], op.pick, op.spawn, c, gen);
    } else {
      CloserRegistry(w, op.me, w.closers[op.me]);
    }
  }

  lemma DropLeavesDoomed(w: World, p: Permit, pick: Option<Addr>, spawn: Id, c: Ref, gen: nat)
    requires p.phase.Dropping? && Doomed(w.reg, c, gen)
    ensures Doomed(DropEffect(w, p, pick, spawn).reg, c, gen)
  {
    DropRegistry(w, p, pick, spawn);
    TryLeavesDoomed(w.reg, p.snap, DropRequest(p), c, gen);
    assert Doomed(ForgetHandles(w.reg, p.snap), c, gen) && Doomed(Retire(w.reg, p.snap), c, gen);
  }

  lemma {:induction false} DoomedForever(w: World, ops: seq<Op>, c: Ref, gen: nat)
    requires IsRun(w, ops) && Doomed(w.reg, c, gen)
    ensures Doomed(Run(w, ops).reg, c, gen)
    decreases |ops|
  {
    if ops != [] {
      DoomedStep(w, ops[0], c, gen);
      DoomedForever(Step(w, ops[0]), ops[1..], c, gen);
    }
  }

  /** Once a task has begun to close a generation, nothing is ever published through it again and the view
      never gives anybody a permit again, in the rest of any run. */
  lemma ClosingShutsForever(w: World, op: Op, s: Snap, ops: seq<Op>, incoming: bool)
    requires Enabled(w, op) && op.CloserStepping? && Current(w.reg, s) && IsRun(Step(w, op), ops)
    requires w.closers[op.me] == Disconnecting(s) || (w.closers[op.me].ClosingOwner? && w.closers[op.me].snap == s)
    ensures Current(Step(w, op).reg, s) && Step(w, op).reg.cells[s.cell].state.Closing?
    ensures var r := Run(Step(w, op), ops).reg;
            && !PublicationOpen(r, s)
            && s.cell in r.cells && LockSession(r, View(s.cell, None), incoming).1.MustWait?
  {
    CloserRegistry(w, op.me, w.closers[op.me]);
    assert Doomed(Step(w, op).reg, s.cell, s.gen);
    DoomedForever(Step(w, op), ops, s.cell, s.gen);
    LockVerdict(Run(Step(w, op), ops).reg, s.cell, incoming);
  }

  // ---------------------------------------------------------------- where permits come from

  /** The permit was there before, or has a later generation, or answers a reverse connection. */
  predicate Originates(w: World, w': World, q: Id) {
    q in w'.permits ==>
      || (q in w.permits && SamePermit(w.permits, w'.permits, q))
      || w'.permits[q].kind.AcceptReverse?
      || w'.permits[q].snap.gen >= w.reg.nextGen
  }

  lemma PermitOrigin(w: World, op: Op, q: Id)
    requires Enabled(w, op)
    ensures Originates(w, Step(w, op), q)
  {
    var w' := Step(w, op);
    if q in w.permits {
      PermitStays(w, op, q);
    } else if op.Locking? {
      LockVerdict(w.reg, op.c, op.kind.Accept?);
      assert Originates(w, w', q);
    } else if op.Driving? {
      DrivePermitKeys(w, op.me, op.choice);
    } else if op.DropStepping? {
      assert w'.permits == w.permits[op.me := w.permits[op.me].(phase := NextDrop(w.reg, w.permits[op.me]))];
    } else if op.CloserStepping? {
      CloserLeavesPermits(w, op.me, w.closers[op.me]);
    } else {
      assert w'.permits.Keys == w.permits.Keys;
    }
  }

  lemma DrivePermitKeys(w: World, me: Id, choice: Choice)
    requires me in w.permits && w.permits[me].phase.Driving?
    ensures DoDrive(w, me, choice).permits.Keys == w.permits.Keys
  {
    var p := w.permits[me];
    match Next(p.kind, p.phase.pc, choice, Heard(w.reg, p.snap)) {
      case Ask(_, _, _) =>
      case _ =>
    }
  }

  lemma {:induction false} PermitOriginRun(w: World, ops: seq<Op>, q: Id)
    requires IsRun(w, ops)
    ensures Originates(w, Run(w, ops), q)
    decreases |ops|
  {
    if ops != [] {
      var w1 := Step(w, ops[0]);
      PermitOrigin(w, ops[0], q);
      StepLater(w, ops[0]);
      PermitOriginRun(w1, ops[1..], q);
    }
  }

  // ---------------------------------------------------------------- only the holder moves its generation

  predicate ActsFor(op: Op, me: Id) {
    (op.Driving? || op.DropStepping?) && op.me == me
  }

  /** The state is the same, or a reverse handshake has gone on. */
  predicate Undisturbed(s: SessionState, s': SessionState) {
    s' == s || (s.ReverseConnection? && s'.ReverseConnection?)
  }

  function StateOf(w: World, me: Id): SessionState
    requires me in w.permits
  {
    SeenState(w.reg, w.permits[me].snap)
  }

  /** Another permit that is current for the same view answers a reverse connection. */
  lemma OthersAnswer(w: World, me: Id, q: Id)
    requires Inv(w) && me in w.permits && !w.permits[me].kind.AcceptReverse? && Current(w.reg, w.permits[me].snap)
    requires q in w.permits && q != me && w.permits[q].snap == w.permits[me].snap
    ensures w.permits[q].kind.AcceptReverse? && ReversePhaseOk(w.permits[q].phase)
  {
    assert PermitOk(w.reg, w.permits, w.holder, me);
    assert PermitOk(w.reg, w.permits, w.holder, q);
  }

  lemma AnswerUndisturbed(w: World, q: Id, req: Request)
    requires Inv(w) && q in w.permits && w.permits[q].kind.AcceptReverse? && Current(w.reg, w.permits[q].snap)
    requires (req.ToIncoming? && req.init != ConnectIntent)
             || (req.To? && req.state.ReverseConnection? && req.state.reverse.Finished?)
    ensures var c := w.permits[q].snap.cell;
            Undisturbed(w.reg.cells[c].state, Try(w.reg, w.permits[q].snap, req).0.cells[c].state)
  {
    if Try(w.reg, w.permits[q].snap, req).1 {
      ReverseAsks(w, q, req);
    }
  }

  lemma OtherDriveUndisturbed(w: World, q: Id, choice: Choice, me: Id)
    requires Inv(w) && Mine(w, me) && !w.permits[me].kind.AcceptReverse?
    requires q in w.permits && q != me && w.permits[q].phase.Driving?
    requires w.permits[q].snap.cell == w.permits[me].snap.cell
    ensures var c := w.permits[me].snap.cell; var r := DoDrive(w, q, choice).reg;
            c in r.cells && Undisturbed(w.reg.cells[c].state, r.cells[c].state)
  {
    var p := w.permits[q];
    DriveRegistry(w, q, choice);
    var move := Next(p.kind, p.phase.pc, choice, Heard(w.reg, p.snap));
    if move.Ask? && Current(w.reg, p.snap) {
      OthersAnswer(w, me, q);
      NextReverse(p.phase.pc, choice, Heard(w.reg, p.snap));
      AnswerUndisturbed(w, q, move.req);
    }
  }

  lemma OtherDropUndisturbed(w: World, q: Id, pick: Option<Addr>, spawn: Id, me: Id)
    requires Inv(w) && Mine(w, me) && !w.permits[me].kind.AcceptReverse?
    requires q in w.permits && q != me && w.permits[q].phase.Dropping?
    requires w.permits[q].snap.cell == w.permits[me].snap.cell
    ensures var c := w.permits[me].snap.cell; var r := DoDropStep(w, q, pick, spawn).reg;
            c in r.cells && Undisturbed(w.reg.cells[c].state, r.cells[c].state)
  {
    var p := w.permits[q];
    if !Current(w.reg, p.snap) {
      StaleDrop(w, p, pick, spawn);
    } else {
      OthersAnswer(w, me, q);
      if p.phase.step.FinishReverse? {
        AnswerUndisturbed(w, q, DropRequest(p));
      }
    }
  }

  /** While an ordinary permit is current and its view is not being closed, no operation but its own changes
      the state, except that the permit which answers a reverse connection carries that on. */
  lemma OnlyHolderMoves(w: World, op: Op, me: Id)
    requires Inv(w) && Enabled(w, op) && Mine(w, me) && !w.permits[me].kind.AcceptReverse? && !ActsFor(op, me)
    ensures SamePermit(w.permits, Step(w, op).permits, me)
    ensures Mine(Step(w, op), me) ==> Undisturbed(StateOf(w, me), StateOf(Step(w, op), me))
  {
    PermitStays(w, op, me);
    if Mine(Step(w, op), me) {
      StateUndisturbed(w, op, me);
    }
  }

  lemma LockUndisturbed(r: Registry, c: Ref, incoming: bool, gen: nat)
    requires RegistryOk(r) && Current(r, Snap(c, gen))
    ensures var r' := LockSession(r, View(c, None), incoming).0;
            Current(r', Snap(c, gen)) ==> Undisturbed(r.cells[c].state, r'.cells[c].state)
  {
    LockVerdict(r, c, incoming);
    assert CellOk(r, c);
  }

  lemma CloserUndisturbed(w: World, me: Id, k: Closer, c: Ref)
    requires Live(w.reg, c)
    ensures var r := CloserEffect(w, me, k).reg;
            Live(r, c) && !r.cells[c].state.Closing? ==> Undisturbed(w.reg.cells[c].state, r.cells[c].state)
  {
    CloserRegistry(w, me, k);
  }

  lemma StateUndisturbed(w: World, op: Op, me: Id)
    requires Inv(w) && Enabled(w, op) && Mine(w, me) && !w.permits[me].kind.AcceptReverse? && !ActsFor(op, me)
    requires Current(Step(w, op).reg, w.permits[me].snap)
    requires !Step(w, op).reg.cells[w.permits[me].snap.cell].state.Closing?
    ensures var c := w.permits[me].snap.cell; Undisturbed(w.reg.cells[c].state, Step(w, op).reg.cells[c].state)
  {
    var c := w.permits[me].snap.cell;
    var r := Step(w, op).reg;
    if Touches(w, op) != Some(c) {
      UntouchedLives(w, op, c);
      assert Undisturbed(w.reg.cells[c].state, r.cells[c].state);
    } else if op.Locking? {
      LockedRegistry(w, c, op.kind, op.me, op.cursor);
      LockUndisturbed(w.reg, c, op.kind.Accept?, w.permits[me].snap.gen);
      assert Undisturbed(w.reg.cells[c].state, r.cells[c].state);
    } else if op.Driving? {
      OtherDriveUndisturbed(w, op.me, op.choice, me);
      assert Undisturbed(w.reg.cells[c].state, r.cells[c].state);
    } else if op.DropStepping? {
      OtherDropUndisturbed(w, op.me, op.pick, op.spawn, me);
      assert Undisturbed(w.reg.cells[c].state, r.cells[c].state);
    } else {
      assert op.CloserStepping?;
      CloserUndisturbed(w, op.me, w.closers[op.me], c);
      assert Undisturbed(w.reg.cells[c].state, r.cells[c].state);
    }
  }

  // ---------------------------------------------------------------- the session of a generation

  /** The session a permit is about to establish or to report. */
  function SessionOf(phase: Phase): Option<SessionRef> {
    match phase
    case Driving(Endpoints(n)) => Some(n)
    case Driving(Done(Success(n))) => Some(n)
    case Dropping(Check, Success(n)) => Some(n)
    case Dropping(Forget, Success(n)) => Some(n)
    case Dropping(Publish, Success(n)) => Some(n)
    case Dropping(FinishReverse, Success(n)) => Some(n)
    case _ => None
  }

  /** It was registered for the permit's generation, unless the connection is relayed. */
  predicate PermitOwns(w: World, me: Id)
    requires me in w.permits
  {
    var p := w.permits[me];
    SessionOf(p.phase).Some? ==>
      var n := SessionOf(p.phase).value;
      if p.kind.AcceptReverse? then Owned(w.created, n, p.snap.gen)
      else Mine(w, me) ==> n in w.created && (StateOf(w, me).Relayed? || Owned(w.created, n, p.snap.gen))
  }

  predicate StateOwns(created: map<Ref, Session>, cell: Cell) {
    match cell.state
    case ReverseConnection(Finished(Success(n))) => Owned(created, n, cell.epoch)
    case Established(n) =>
      && n in created && |cell.log| > 0
      && (Owned(created, n, cell.epoch) || EndsWith(cell.log, |cell.log| - 1, RelayedHandshake))
    case _ => true
  }

  ghost predicate Ownership(w: World) {
    && (forall me :: me in w.permits ==> PermitOwns(w, me))
    && (forall c :: Live(w.reg, c) ==> StateOwns(w.created, w.reg.cells[c]))
  }

  /** A permit that is in possession of its unclosed generation was so before. */
  lemma MineBefore(w: World, op: Op, me: Id)
    requires Inv(w) && Enabled(w, op) && me in w.permits && Mine(Step(w, op), me)
    ensures Mine(w, me)
  {
    var s := w.permits[me].snap;
    PermitStays(w, op, me);
    assert PermitOk(w.reg, w.permits, w.holder, me);
    StepLater(w, op);
    assert CellLater(w.reg, s.cell, Step(w, op).reg);
    assert CellOk(w.reg, s.cell);
    if w.reg.cells[s.cell].state.Closing? {
      DoomedStep(w, op, s.cell, w.reg.cells[s.cell].epoch);
    }
  }

  // the views

  /** A task that drives a handshake never asks for the last states itself. */
  lemma NextNeverFinishes(kind: Kind, pc: Pc, choice: Choice, log: seq<SessionState>, s: SessionState)
    ensures var move := Next(kind, pc, choice, log);
            move.Ask? ==> var t := Resolved(s, move.req);
                          !t.Established? && !(t.ReverseConnection? && t.reverse.Finished?)
  {
  }

  predicate Final(s: SessionState) {
    s.Established? || (s.ReverseConnection? && s.reverse.Finished?)
  }

  lemma OwnsByOldState(created: map<Ref, Session>, created': map<Ref, Session>, cell: Cell, cell': Cell)
    requires StateOwns(created, cell) && cell'.state == cell.state && cell'.epoch == cell.epoch && cell'.log == cell.log
    requires forall n :: n in created ==> n in created' && created'[n] == created[n]
    ensures StateOwns(created', cell')
  {
  }

  lemma CreatedGrows(w: World, op: Op)
    requires Enabled(w, op)
    ensures forall n :: n in w.created ==> n in Step(w, op).created && Step(w, op).created[n] == w.created[n]
  {
    forall n | n in w.created ensures n in Step(w, op).created && Step(w, op).created[n] == w.created[n] {
      StepRemembers(w, op, n);
    }
  }

  lemma TryOwns(created: map<Ref, Session>, r: Registry, s: Snap, req: Request, c: Ref)
    requires c in r.cells && StateOwns(created, r.cells[c]) && !Final(Resolved(r.cells[c].state, req))
    ensures StateOwns(created, Try(r, s, req).0.cells[c])
  {
  }

  /** The view has completed a method, and `n` was registered for it or, if relayed, at all. */
  predicate MayEstablish(created: map<Ref, Session>, cell: Cell, n: Ref) {
    && IsHistory(cell.log) && cell.log != [] && cell.state == cell.log[|cell.log| - 1]
    && cell.state.EstablishReady() && n in created && (cell.state.Relayed? || Owned(created, n, cell.epoch))
  }

  lemma ReadyToPublish(w: World, me: Id)
    requires Inv(w) && Ownership(w) && Mine(w, me) && w.permits[me].phase.Dropping?
    requires w.permits[me].phase.step.Publish?
    ensures w.permits[me].phase.result.Success?
    ensures MayEstablish(w.created, w.reg.cells[w.permits[me].snap.cell], w.permits[me].phase.result.session)
  {
    assert PermitOk(w.reg, w.permits, w.holder, me);
    assert CellOk(w.reg, w.permits[me].snap.cell);
    assert PermitOwns(w, me);
    MineAgrees(w, me);
  }

  lemma EstablishOwns(created: map<Ref, Session>, cell: Cell, n: Ref)
    requires MayEstablish(created, cell, n)
    ensures StateOwns(created, cell.(state := Established(n), log := cell.log + [Established(n)]))
  {
    if cell.state.Relayed? {
      RelayedBack(cell.log, |cell.log|);
      var log := cell.log + [Established(n)];
      assert log[|cell.log| - 2..|cell.log|] == cell.log[|cell.log| - 2..|cell.log|];
    }
  }

  lemma TryEstablishOwns(created: map<Ref, Session>, r: Registry, s: Snap, n: Ref)
    requires Current(r, s)
    requires r.cells[s.cell].state.Closing? || MayEstablish(created, r.cells[s.cell], n)
    ensures StateOwns(created, Try(r, s, To(Established(n))).0.cells[s.cell])
  {
    if !r.cells[s.cell].state.Closing? {
      EstablishOwns(created, r.cells[s.cell], n);
    }
  }

  /** Establishing: the permit's session is its own, or the relayed method has just been completed. */
  lemma PublishOwns(w: World, me: Id, c: Ref)
    requires Inv(w) && Ownership(w) && me in w.permits && w.permits[me].phase.Dropping?
    requires w.permits[me].phase.step.Publish? && w.permits[me].snap.cell == c && Current(w.reg, w.permits[me].snap)
    ensures StateOwns(w.created, Try(w.reg, w.permits[me].snap, DropRequest(w.permits[me])).0.cells[c])
  {
    var p := w.permits[me];
    var n := if p.phase.result.Success? then p.phase.result.session else 0;
    assert DropRequest(p) == To(Established(n));
    if Mine(w, me) {
      ReadyToPublish(w, me);
    } else {
      assert w.reg.cells[c].state.Closing?;
    }
    TryEstablishOwns(w.created, w.reg, p.snap, n);
  }

  lemma ReportOwns(w: World, me: Id, c: Ref)
    requires Inv(w) && Ownership(w) && me in w.permits && w.permits[me].phase.Dropping?
    requires w.permits[me].phase.step.FinishReverse?
    requires w.permits[me].snap.cell == c && Current(w.reg, w.permits[me].snap)
    ensures StateOwns(w.created, Try(w.reg, w.permits[me].snap, DropRequest(w.permits[me])).0.cells[c])
  {
    var p := w.permits[me];
    assert PermitOk(w.reg, w.permits, w.holder, me);
    assert PermitOwns(w, me);
    assert Live(w.reg, c) && StateOwns(w.created, w.reg.cells[c]);
    if Try(w.reg, p.snap, DropRequest(p)).1 && !p.kind.AcceptReverse? {
      MineAgrees(w, me);
    }
  }

  lemma AskingDrop(w: World, p: Permit, pick: Option<Addr>, spawn: Id)
    requires p.phase.Dropping? && (p.phase.step.Publish? || p.phase.step.FinishReverse?)
    ensures DropEffect(w, p, pick, spawn).reg == Try(w.reg, p.snap, DropRequest(p)).0
  {
  }

  lemma DropOwns(w: World, me: Id, pick: Option<Addr>, spawn: Id, c: Ref)
    requires Inv(w) && Ownership(w) && me in w.permits && w.permits[me].phase.Dropping?
    requires w.permits[me].snap.cell == c && Live(w.reg, c)
    ensures var r := DropEffect(w, w.permits[me], pick, spawn).reg; Live(r, c) ==> StateOwns(w.created, r.cells[c])
  {
    var p := w.permits[me];
    assert StateOwns(w.created, w.reg.cells[c]);
    if !p.phase.step.Publish? && !p.phase.step.FinishReverse? {
      QuietDropOwns(w, p, pick, spawn, c);
    } else {
      AskingDrop(w, p, pick, spawn);
      if Current(w.reg, p.snap) {
        AskingDropOwns(w, me, c);
      }
    }
  }

  lemma AskingDropOwns(w: World, me: Id, c: Ref)
    requires Inv(w) && Ownership(w) && me in w.permits && w.permits[me].phase.Dropping?
    requires w.permits[me].phase.step.Publish? || w.permits[me].phase.step.FinishReverse?
    requires w.permits[me].snap.cell == c && Current(w.reg, w.permits[me].snap)
    ensures StateOwns(w.created, Try(w.reg, w.permits[me].snap, DropRequest(w.permits[me])).0.cells[c])
  {
    if w.permits[me].phase.step.Publish? {
      PublishOwns(w, me, c);
    } else {
      ReportOwns(w, me, c);
    }
  }

  lemma QuietDropOwns(w: World, p: Permit, pick: Option<Addr>, spawn: Id, c: Ref)
    requires p.phase.Dropping? && !p.phase.step.Publish? && !p.phase.step.FinishReverse?
    requires Live(w.reg, c) && StateOwns(w.created, w.reg.cells[c])
    ensures var r := DropEffect(w, p, pick, spawn).reg; Live(r, c) ==> StateOwns(w.created, r.cells[c])
  {
    DropRegistry(w, p, pick, spawn);
    TryOwns(w.created, w.reg, p.snap, DropRequest(p), c);
    assert SameLife(w.reg.cells[c], ForgetHandles(w.reg, p.snap).cells[c]);
    OwnsByOldState(w.created, w.created, w.reg.cells[c], ForgetHandles(w.reg, p.snap).cells[c]);
  }

  lemma StepStateOwns(w: World, op: Op, c: Ref)
    requires Inv(w) && Ownership(w) && Enabled(w, op) && Live(Step(w, op).reg, c)
    ensures StateOwns(Step(w, op).created, Step(w, op).reg.cells[c])
  {
    var r := Step(w, op).reg;
    CreatedGrows(w, op);
    if c !in w.reg.cells {
      NewViewsAreClosed(w, op, c);
    } else {
      StepLater(w, op);
      assert CellLater(w.reg, c, r);
      assert StateOwns(w.created, w.reg.cells[c]);
      TouchedStateOwns(w, op, c);
      OwnsByOldState(w.created, Step(w, op).created, r.cells[c], r.cells[c]);
    }
  }

  lemma TouchedStateOwns(w: World, op: Op, c: Ref)
    requires Inv(w) && Ownership(w) && Enabled(w, op) && Live(w.reg, c) && Live(Step(w, op).reg, c)
    ensures StateOwns(w.created, Step(w, op).reg.cells[c])
  {
    assert StateOwns(w.created, w.reg.cells[c]);
    if Touches(w, op) != Some(c) {
      UntouchedLives(w, op, c);
      OwnsByOldState(w.created, w.created, w.reg.cells[c], Step(w, op).reg.cells[c]);
    } else if op.Locking? {
      LockedRegistry(w, c, op.kind, op.me, op.cursor);
      LockVerdict(w.reg, c, op.kind.Accept?);
    } else if op.Driving? {
      DriveStateOwns(w, op.me, op.choice, c);
    } else if op.DropStepping? {
      DropOwns(w, op.me, op.pick, op.spawn, c);
    } else {
      CloserStateOwns(w, op.me, w.closers[op.me], c);
    }
  }

  lemma DriveStateOwns(w: World, me: Id, choice: Choice, c: Ref)
    requires me in w.permits && w.permits[me].phase.Driving? && c in w.reg.cells && StateOwns(w.created, w.reg.cells[c])
    ensures var r := DoDrive(w, me, choice).reg; c in r.cells && StateOwns(w.created, r.cells[c])
  {
    var p := w.permits[me];
    DriveRegistry(w, me, choice);
    NextNeverFinishes(p.kind, p.phase.pc, choice, Heard(w.reg, p.snap), w.reg.cells[c].state);
    var move := Next(p.kind, p.phase.pc, choice, Heard(w.reg, p.snap));
    if move.Ask? {
      TryOwns(w.created, w.reg, p.snap, move.req, c);
    }
  }

  lemma CloserStateOwns(w: World, me: Id, k: Closer, c: Ref)
    requires Live(w.reg, c) && StateOwns(w.created, w.reg.cells[c])
    ensures var r := CloserEffect(w, me, k).reg; Live(r, c) ==> StateOwns(w.created, r.cells[c])
  {
    CloserRegistry(w, me, k);
  }

  lemma NewViewsAreClosed(w: World, op: Op, c: Ref)
    requires Enabled(w, op)
    ensures c in Step(w, op).reg.cells && c !in w.reg.cells ==> Step(w, op).reg.cells[c].state.Closed?
  {
    if op.Guarding? {
      GuardGrew(w.reg, op.id, op.addrs, op.c);
    } else if op.Updating? {
      UpdateGrew(w.reg, op.info, op.c);
    } else if op.Refresh? {
      if RefreshCommits(w, op.snap, op.id, op.original, op.info) {
        CommitGrew(w.reg, op.snap, op.info);
      }
    } else if op.Locking? {
      LockedRegistry(w, op.c, op.kind, op.me, op.cursor);
      LockVerdict(w.reg, op.c, op.kind.Accept?);
    } else if op.Driving? {
      DriveRegistry(w, op.me, op.choice);
    } else if op.DropStepping? {
      DropRegistry(w, w.permits[op.me], op.pick, op.spawn);
    } else if op.CloserStepping? {
      CloserRegistry(w, op.me, w.closers[op.me]);
    } else {
      assert Step(w, op).reg.cells.Keys == w.reg.cells.Keys;
    }
  }

  // the permits

  predicate Handles(op: Op, me: Id) {
    ActsFor(op, me) || ((op.Aborting? || op.DroppingPermit?) && op.me == me)
  }

  lemma PhaseStays(w: World, op: Op, q: Id)
    requires Enabled(w, op) && q in w.permits && !Handles(op, q)
    ensures q in Step(w, op).permits && Step(w, op).permits[q] == w.permits[q]
  {
    var w' := Step(w, op);
    if op.Locking? {
      LockVerdict(w.reg, op.c, op.kind.Accept?);
    } else if op.Driving? {
      var p := w.permits[op.me];
      match Next(p.kind, p.phase.pc, op.choice, Heard(w.reg, p.snap)) {
        case Ask(_, _, _) =>
        case _ =>
      }
    } else if op.DropStepping? {
      assert w'.permits == w.permits[op.me := w.permits[op.me].(phase := NextDrop(w.reg, w.permits[op.me]))];
    } else if op.CloserStepping? {
      CloserLeavesPermits(w, op.me, w.closers[op.me]);
    } else if op.Aborting? || op.DroppingPermit? {
      assert q != op.me;
    } else {
      assert w'.permits == w.permits;
    }
  }

  function SessionAt(pc: Pc): Option<SessionRef> {
    SessionOf(Phase.Driving(pc))
  }

  /** Where a permit's session comes from. */
  lemma NextSession(kind: Kind, pc: Pc, choice: Choice, log: seq<SessionState>)
    ensures match Next(kind, pc, choice, log)
            case Stop => true
            case Internal(next) =>
              SessionAt(next).Some? ==>
                || SessionAt(next) == SessionAt(pc)
                || (pc.Await? && choice.Go? && pc.start <= choice.n < |log|
                    && log[choice.n] == ReverseConnection(Finished(Success(SessionAt(next).value))))
            case Ask(req, accepted, refused) =>
              && SessionAt(refused).None?
              && (SessionAt(accepted).Some? ==>
                    && choice.Go? && SessionAt(accepted) == Some(choice.n)
                    && (pc.RelayRegister? || (pc.Shake? && pc.next.Ready?) || (pc.Accepting? && pc.next.Ready?))
                    && (pc.RelayRegister? ==> req == To(Relayed(RelayReady))))
  {
    match pc {
      case Shake(next, _) =>
      case Accepting(next) =>
      case Await(_) =>
      case Endpoints(_) =>
      case RelayRegister =>
      case Start(m) =>
      case RestartAddr(_) =>
      case RestartMethod(_) =>
      case Done(_) =>
    }
  }

  lemma LetGoOwns(w: World, me: Id, phase: Phase)
    requires Ownership(w) && me in w.permits
    requires SessionOf(phase).None? || SessionOf(phase) == SessionOf(w.permits[me].phase)
    ensures PermitOwns(SetPhase(w, me, phase), me)
  {
    assert PermitOwns(w, me);
  }

  lemma InternalOwns(w: World, me: Id, choice: Choice, pc: Pc)
    requires Inv(w) && Ownership(w) && me in w.permits && w.permits[me].phase.Driving?
    requires Next(w.permits[me].kind, w.permits[me].phase.pc, choice, Heard(w.reg, w.permits[me].snap)) == Internal(pc)
    ensures PermitOwns(SetPhase(w, me, Phase.Driving(pc)), me)
  {
    var p := w.permits[me];
    assert PermitOwns(w, me);
    NextSession(p.kind, p.phase.pc, choice, Heard(w.reg, p.snap));
    if SessionAt(pc).None? || SessionAt(pc) == SessionAt(p.phase.pc) {
      LetGoOwns(w, me, Phase.Driving(pc));
    } else {
      assert PermitOk(w.reg, w.permits, w.holder, me);
      assert !p.kind.AcceptReverse?;
      if Mine(w, me) {
        MineAgrees(w, me);
        assert StateOwns(w.created, w.reg.cells[p.snap.cell]);
        assert Owned(w.created, SessionAt(pc).value, p.snap.gen);
      }
    }
  }

  lemma AskOwns(w: World, me: Id, choice: Choice, req: Request, accepted: Pc, refused: Pc)
    requires Inv(w) && me in w.permits && w.permits[me].phase.Driving? && Vouched(w.created, w.permits[me], choice)
    requires Next(w.permits[me].kind, w.permits[me].phase.pc, choice, Heard(w.reg, w.permits[me].snap))
             == Ask(req, accepted, refused)
    ensures PermitOwns(DoAsk(w, me, req, Phase.Driving(accepted), Phase.Driving(refused)), me)
  {
    var p := w.permits[me];
    NextSession(p.kind, p.phase.pc, choice, Heard(w.reg, p.snap));
    var w' := DoAsk(w, me, req, Phase.Driving(accepted), Phase.Driving(refused));
    assert w'.created == w.created && w'.permits[me].kind == p.kind && w'.permits[me].snap == p.snap;
    if !Try(w.reg, p.snap, req).1 || SessionAt(accepted).None? {
      assert SessionOf(w'.permits[me].phase).None?;
    } else if p.phase.pc.RelayRegister? {
      assert PermitOk(w.reg, w.permits, w.holder, me);
      assert !p.kind.AcceptReverse? && choice.n in w'.created;
      assert StateOf(w', me).Relayed?;
    } else {
      assert Owned(w'.created, choice.n, p.snap.gen);
    }
  }

  lemma DriveOwns(w: World, me: Id, choice: Choice)
    requires Inv(w) && Ownership(w) && me in w.permits && w.permits[me].phase.Driving?
    requires Vouched(w.created, w.permits[me], choice)
    ensures me in DoDrive(w, me, choice).permits && PermitOwns(DoDrive(w, me, choice), me)
  {
    var p := w.permits[me];
    match Next(p.kind, p.phase.pc, choice, Heard(w.reg, p.snap)) {
      case Stop => assert PermitOwns(w, me);
      case Internal(pc) => InternalOwns(w, me, choice, pc);
      case Ask(req, accepted, refused) => AskOwns(w, me, choice, req, accepted, refused);
    }
  }

  lemma NextDropSession(r: Registry, p: Permit)
    requires p.phase.Dropping?
    ensures SessionOf(NextDrop(r, p)).Some? ==>
              (p.phase.step.Check? || p.phase.step.Forget?) && SessionOf(NextDrop(r, p)) == SessionOf(p.phase)
  {
  }

  lemma ForgettingOwns(w: World, me: Id, phase: Phase)
    requires me in w.permits && PermitOwns(SetPhase(w, me, phase), me)
    ensures PermitOwns(SetPhase(w, me, phase).(reg := ForgetHandles(w.reg, w.permits[me].snap)), me)
  {
  }

  lemma DropStepOwns(w: World, me: Id, pick: Option<Addr>, spawn: Id)
    requires Inv(w) && Ownership(w) && me in w.permits && w.permits[me].phase.Dropping?
    ensures PermitOwns(DoDropStep(w, me, pick, spawn), me)
  {
    var p := w.permits[me];
    var phase := NextDrop(w.reg, p);
    var w' := DoDropStep(w, me, pick, spawn);
    NextDropSession(w.reg, p);
    if p.phase.step.Check? {
      LetGoOwns(w, me, phase);
      assert w' == SetPhase(w, me, phase);
    } else if p.phase.step.Forget? {
      LetGoOwns(w, me, phase);
      ForgettingOwns(w, me, phase);
      assert w' == SetPhase(w, me, phase).(reg := ForgetHandles(w.reg, p.snap));
    } else {
      assert SessionOf(w'.permits[me].phase).None?;
    }
  }

  lemma NewPermitOwns(w: World, op: Op, me: Id)
    requires Enabled(w, op)
    ensures me !in w.permits && me in Step(w, op).permits ==> SessionOf(Step(w, op).permits[me].phase).None?
  {
    var w' := Step(w, op);
    if op.Locking? {
      LockVerdict(w.reg, op.c, op.kind.Accept?);
    } else if op.Driving? {
      DrivePermitKeys(w, op.me, op.choice);
      assert w'.permits.Keys == w.permits.Keys;
    } else if op.CloserStepping? {
      CloserLeavesPermits(w, op.me, w.closers[op.me]);
      assert w'.permits.Keys == w.permits.Keys;
    } else {
      assert w'.permits.Keys == w.permits.Keys;
    }
  }

  lemma OtherStepOwns(w: World, op: Op, me: Id)
    requires Inv(w) && Ownership(w) && Enabled(w, op) && me in w.permits && !Handles(op, me)
    ensures me in Step(w, op).permits && PermitOwns(Step(w, op), me)
  {
    assert PermitOwns(w, me);
    PhaseStays(w, op, me);
    CreatedGrows(w, op);
    if !w.permits[me].kind.AcceptReverse? && Mine(Step(w, op), me) {
      MineBefore(w, op, me);
      OnlyHolderMoves(w, op, me);
      if StateOf(w, me).Relayed? {
        assert StateOf(Step(w, op), me).Relayed?;
      }
    }
  }

  lemma LettingGo(w: World, op: Op, me: Id)
    requires Ownership(w) && Enabled(w, op) && me in w.permits && (op.Aborting? || op.DroppingPermit?) && op.me == me
    ensures me in Step(w, op).permits && PermitOwns(Step(w, op), me)
  {
    var pc := w.permits[me].phase.pc;
    var phase := if op.Aborting? then Phase.Driving(Done(Failure))
                 else Dropping(Check, if pc.Done? then pc.result else Failure);
    assert Step(w, op) == SetPhase(w, me, phase);
    LetGoOwns(w, me, phase);
  }

  lemma HandledOwns(w: World, op: Op, me: Id)
    requires Inv(w) && Ownership(w) && Enabled(w, op) && me in w.permits && Handles(op, me)
    ensures me in Step(w, op).permits && PermitOwns(Step(w, op), me)
  {
    if op.Driving? {
      DriveOwns(w, me, op.choice);
    } else if op.DropStepping? {
      DropStepOwns(w, me, op.pick, op.spawn);
    } else {
      LettingGo(w, op, me);
    }
  }

  lemma StepPermitOwns(w: World, op: Op, me: Id)
    requires Inv(w) && Ownership(w) && Enabled(w, op) && me in Step(w, op).permits
    ensures PermitOwns(Step(w, op), me)
  {
    if me !in w.permits {
      NewPermitOwns(w, op, me);
    } else if Handles(op, me) {
      HandledOwns(w, op, me);
    } else {
      OtherStepOwns(w, op, me);
    }
  }

  // ---------------------------------------------------------------- over every run

  lemma OwnershipStep(w: World, op: Op)
    requires Inv(w) && Ownership(w) && Enabled(w, op)
    ensures Ownership(Step(w, op))
  {
    var w' := Step(w, op);
    forall me | me in w'.permits ensures PermitOwns(w', me) {
      StepPermitOwns(w, op, me);
    }
    forall c | Live(w'.reg, c) ensures StateOwns(w'.created, w'.reg.cells[c]) {
      StepStateOwns(w, op, c);
    }
  }

  lemma {:induction false} OwnershipRun(w: World, ops: seq<Op>)
    requires Inv(w) && Ownership(w) && IsRun(w, ops)
    ensures Ownership(Run(w, ops))
    decreases |ops|
  {
    if ops != [] {
      StepKeeps(w, ops[0]);
      OwnershipStep(w, ops[0]);
      OwnershipRun(Step(w, ops[0]), ops[1..]);
    }
  }

  lemma ReachableOwnership(w: World)
    requires Reachable(w)
    ensures Inv(w) && Ownership(w)
  {
    var ops :| IsRun(Init, ops) && Run(Init, ops) == w;
    InitInv();
    RunKeeps(Init, ops);
    OwnershipRun(Init, ops);
  }

  /** In every reachable state, the session of an established view was registered, and it was registered for
      that very generation unless the view has just completed a relayed connection, which uses the session of
      the relay. The session a reverse connection reports is always the generation's own. */
  lemma EstablishedSessionIsOwn(w: World, c: Ref)
    requires Reachable(w) && Live(w.reg, c)
    ensures var cell := w.reg.cells[c];
            && (cell.state.Established? ==>
                  && cell.state.session in w.created && |cell.log| > 0
                  && (|| w.created[cell.state.session].generation == cell.epoch
                      || EndsWith(cell.log, |cell.log| - 1, RelayedHandshake)))
            && (FinishedOk(cell.state) ==> Owned(w.created, cell.state.reverse.result.session, cell.epoch))
  {
    ReachableOwnership(w);
    assert StateOwns(w.created, w.reg.cells[c]);
  }

  /** When the drop of a successful permit comes to publish in its own unclosed generation, its session is
      established: the one that was registered for this generation, or the relay's. */
  lemma SuccessIsEstablished(w: World, me: Id, pick: Option<Addr>, spawn: Id)
    requires Reachable(w) && Mine(w, me) && !w.permits[me].kind.AcceptReverse?
    requires w.permits[me].phase.Dropping? && w.permits[me].phase.step.Publish?
    ensures var w' := DoDropStep(w, me, pick, spawn); var p := w.permits[me];
            && p.phase.result.Success?
            && w'.permits[me].phase.Dropped?
            && p.snap.cell in w'.reg.cells
            && w'.reg.cells[p.snap.cell].state == Established(p.phase.result.session)
            && (Owned(w.created, p.phase.result.session, p.snap.gen)
                || (StateOf(w, me) == Relayed(RelayReady) && p.phase.result.session in w.created))
  {
    ReachableOwnership(w);
    MineAgrees(w, me);
    var p := w.permits[me];
    assert PermitOwns(w, me);
    DropAgrees(p.kind, Publish, p.phase.result, w.reg.cells[p.snap.cell].state, p.phase.result.session);
  }
}
