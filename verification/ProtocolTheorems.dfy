/** What the session lifecycle protocol guarantees in every reachable state and over every run. */
module ProtocolTheorems {
  import opened Wrappers
  import opened SessionStates
  import opened Registries
  import opened RoutingTables
  import opened Drivers
  import opened Protocol
  import opened ProtocolInvariant
  import opened ProtocolSteps

  ghost predicate Reachable(w: World) {
    exists ops :: IsRun(Init, ops) && Run(Init, ops) == w
  }

  lemma ReachableInv(w: World)
    requires Reachable(w)
    ensures Inv(w)
  {
    var ops :| IsRun(Init, ops) && Run(Init, ops) == w;
    InitInv();
    RunKeeps(Init, ops);
  }

  // ---------------------------------------------------------------- exclusive permits

  /** Two ordinary permits that are both current for the same identity are the same permit. */
  lemma PermitsAreExclusive(w: World, p: Id, q: Id)
    requires Reachable(w) && p in w.permits && q in w.permits
    requires !w.permits[p].kind.AcceptReverse? && !w.permits[q].kind.AcceptReverse?
    requires Current(w.reg, w.permits[p].snap) && Current(w.reg, w.permits[q].snap)
    requires w.reg.cells[w.permits[p].snap.cell].id == w.reg.cells[w.permits[q].snap.cell].id
    ensures p == q
  {
    ReachableInv(w);
    LiveViewUnique(w, w.permits[p].snap.cell, w.permits[q].snap.cell);
    assert PermitOk(w.reg, w.permits, w.holder, p);
    assert PermitOk(w.reg, w.permits, w.holder, q);
  }

  /** There is at most one live view of an identity. */
  lemma LiveViewUnique(w: World, c: Ref, d: Ref)
    requires Inv(w) && Live(w.reg, c) && Live(w.reg, d) && w.reg.cells[c].id == w.reg.cells[d].id
    ensures c == d
  {
    assert CellOk(w.reg, c);
    assert CellOk(w.reg, d);
  }

  /** No generation is ever handed to two ordinary permits. */
  lemma GenerationsHandedOnce(w: World, p: Id, q: Id)
    requires Reachable(w) && p in w.permits && q in w.permits
    requires !w.permits[p].kind.AcceptReverse? && !w.permits[q].kind.AcceptReverse?
    requires w.permits[p].snap.gen == w.permits[q].snap.gen
    ensures p == q
  {
    ReachableInv(w);
  }

  /** While a permit holder is still working in its own unclosed generation, nobody else is given an
      ordinary permit for the view. */
  lemma NoSecondPermit(w: World, p: Id, incoming: bool)
    requires Reachable(w) && Mine(w, p) && !w.permits[p].kind.AcceptReverse? && w.permits[p].phase.Driving?
    ensures var lock := LockSession(w.reg, View(w.permits[p].snap.cell, None), incoming).1;
            lock.MustWait? || lock.reverse
  {
    ReachableInv(w);
    MineAgrees(w, p);
    DrivingMeansBusy(w.permits[p].kind, w.permits[p].phase.pc, w.reg.cells[w.permits[p].snap.cell].state);
    LockVerdict(w.reg, w.permits[p].snap.cell, incoming);
  }

  // ---------------------------------------------------------------- history only grows

  predicate CellLater(r: Registry, c: Ref, r': Registry)
    requires c in r.cells
  {
    && c in r'.cells
    && r'.cells[c].id == r.cells[c].id
    && (r.cells[c].retired ==> r'.cells[c].retired)
    && (r'.cells[c].epoch == r.cells[c].epoch || r'.cells[c].epoch >= r.nextGen)
    && r.cells[c].log <= r'.cells[c].log
  }

  /** An identity leads to the same view until that view is retired. */
  predicate AliasLater(r: Registry, k: NodeId, r': Registry)
    requires k in r.byId
  {
    var c := r.byId[k].cell;
    || (k in r'.byId && r'.byId[k].cell == c)
    || (c in r'.cells && r'.cells[c].retired)
  }

  /** `r'` may come after `r`: no view disappears, changes its identity, returns from retirement or
      goes back to an earlier generation, new views have new generations, and no identity moves
      between live views. */
  ghost predicate Later(r: Registry, r': Registry) {
    && r.nextGen <= r'.nextGen
    && (forall c :: c in r.cells ==> CellLater(r, c, r'))
    && (forall c :: c in r'.cells && c !in r.cells ==> r'.cells[c].epoch >= r.nextGen)
    && (forall k :: k in r.byId ==> AliasLater(r, k, r'))
  }

  lemma LaterReflexive(r: Registry)
    ensures Later(r, r)
  {
  }

  lemma LaterTransitive(a: Registry, b: Registry, c: Registry)
    requires Later(a, b) && Later(b, c)
    requires forall k :: k in a.byId ==> a.byId[k].cell in a.cells
    ensures Later(a, c)
  {
    forall x | x in a.cells ensures CellLater(a, x, c) {
      assert CellLater(a, x, b) && CellLater(b, x, c);
    }
    forall x | x in c.cells && x !in a.cells ensures c.cells[x].epoch >= a.nextGen {
      if x in b.cells {
        assert CellLater(b, x, c);
      }
    }
    forall k | k in a.byId ensures AliasLater(a, k, c) {
      assert AliasLater(a, k, b);
      assert CellLater(a, a.byId[k].cell, b) && CellLater(b, a.byId[k].cell, c);
      if k in b.byId {
        assert AliasLater(b, k, c);
      }
    }
  }

  lemma GrewLater(r: Registry, r': Registry)
    requires Grew(r, r')
    ensures Later(r, r')
  {
  }

  lemma SetStateLater(r: Registry, c: Ref, s: SessionState)
    requires c in r.cells
    ensures Later(r, SetState(r, c, s))
  {
  }

  lemma BumpLater(r: Registry, c: Ref, s: SessionState)
    requires c in r.cells
    ensures Later(r, Bump(SetState(r, c, s), c))
  {
  }

  lemma RetireLater(r: Registry, s: Snap)
    ensures Later(r, Retire(r, s))
  {
  }

  lemma TryLater(r: Registry, s: Snap, req: Request)
    ensures Later(r, Try(r, s, req).0)
  {
    if Try(r, s, req).1 {
      SetStateLater(r, s.cell, Transition(r.cells[s.cell].state, req).value);
    }
  }

  lemma HandlesLater(r: Registry, s: Snap, h: nat)
    ensures Later(r, ForgetHandles(r, s))
    ensures s.cell in r.cells ==> Later(r, RegisterHandle(r, s, h).0)
  {
  }

  lemma GuardLater(r: Registry, id: NodeId, addrs: seq<Addr>, c: Ref)
    requires c !in r.cells
    ensures Later(r, Guard(r, id, addrs, c).0)
  {
    GuardGrew(r, id, addrs, c);
    GrewLater(r, Guard(r, id, addrs, c).0);
  }

  lemma UpdateLater(r: Registry, info: NodeInfo, c: Ref)
    requires c !in r.cells
    ensures Later(r, Update(r, info, c).0)
  {
    UpdateGrew(r, info, c);
    GrewLater(r, Update(r, info, c).0);
  }

  lemma LockLater(w: World, c: Ref, kind: Kind, me: Id, cursor: nat)
    requires c in w.reg.cells
    ensures Later(w.reg, DoLock(w, c, kind, me, cursor).reg)
  {
    LockVerdict(w.reg, c, kind.Accept?);
    SetStateLater(w.reg, c, ReverseConnection(InProgress(ConnectIntent)));
    BumpLater(w.reg, c, if kind.Accept? then Incoming(ConnectIntent) else Outgoing(ConnectIntent));
    LaterReflexive(w.reg);
  }

  lemma DriveLater(w: World, me: Id, choice: Choice)
    requires me in w.permits && w.permits[me].phase.Driving?
    ensures Later(w.reg, DoDrive(w, me, choice).reg)
  {
    var p := w.permits[me];
    LaterReflexive(w.reg);
    match Next(p.kind, p.phase.pc, choice, Heard(w.reg, p.snap)) {
      case Ask(req, _, _) => TryLater(w.reg, p.snap, req);
      case _ =>
    }
  }

  lemma DropLater(w: World, p: Permit, pick: Option<Addr>, spawn: Id)
    requires p.phase.Dropping?
    ensures Later(w.reg, DropEffect(w, p, pick, spawn).reg)
  {
    var r := DropEffect(w, p, pick, spawn).reg;
    match p.phase.step {
      case Check => LaterReflexive(w.reg); assert Later(w.reg, r);
      case Unregister1 => UnregisterLater(w, p.snap); assert Later(w.reg, r);
      case Unregister2 => UnregisterLater(w, p.snap); assert Later(w.reg, r);
      case Clean1 => HandlesLater(w.reg, p.snap, 0); assert Later(w.reg, r);
      case Clean2 => HandlesLater(w.reg, p.snap, 0); assert Later(w.reg, r);
      case Forget => HandlesLater(w.reg, p.snap, 0); assert Later(w.reg, r);
      case _ => TryLater(w.reg, p.snap, DropRequest(p));
    }
  }

  lemma UnregisterLater(w: World, s: Snap)
    ensures Later(w.reg, Unregistered(w, s).reg)
  {
    RetireLater(w.reg, s);
    LaterReflexive(w.reg);
  }

  lemma BeginClosingLater(r: Registry, s: Snap)
    ensures Later(r, BeginClosing(r, s))
  {
    LaterReflexive(r);
    if Current(r, s) {
      SetStateLater(r, s.cell, Closing);
    }
  }

  lemma CloserStepLater(w: World, me: Id, pick: Option<Addr>, next: (NodeId, nat))
    requires me in w.closers
    ensures Later(w.reg, DoCloserStep(w, me, pick, next).reg)
  {
    LaterReflexive(w.reg);
    var r := DoCloserStep(w, me, pick, next).reg;
    match w.closers[me] {
      case Disconnecting(s) => BeginClosingLater(w.reg, s); assert Later(w.reg, r);
      case Unregistering(s) => RetireLater(w.reg, s); assert Later(w.reg, r);
      case LookingUp(_) => assert r == w.reg;
      case ClosingOwner(_, s) => BeginClosingLater(w.reg, s); assert Later(w.reg, r);
      case Collecting(_) => assert r == w.reg;
      case Retiring(_, _) => assert r == w.reg;
      case RetiringOne(_, s, _) => RetireLater(w.reg, s); assert Later(w.reg, r);
      case Ended => assert r == w.reg;
    }
  }

  lemma StepLater(w: World, op: Op)
    requires Enabled(w, op)
    ensures Later(w.reg, Step(w, op).reg)
  {
    LaterReflexive(w.reg);
    match op {
      case Guarding(id, addrs, c) => GuardLater(w.reg, id, addrs, c);
      case Updating(info, c) => UpdateLater(w.reg, info, c);
      case Locking(c, kind, me, cursor) => LockLater(w, c, kind, me, cursor);
      case Driving(me, choice) => DriveLater(w, me, choice);
      case DropStepping(me, pick, spawn) => DropLater(w, w.permits[me], pick, spawn);
      case AddingHandle(s, h) => HandlesLater(w.reg, s, h);
      case DroppingHandles(s) => HandlesLater(w.reg, s, 0);
      case CloserStepping(me, pick, next) => CloserStepLater(w, me, pick, next);
      case Refresh(s, id, original, info, _) =>
        if RefreshCommits(w, s, id, original, info) {
          CommitGrew(w.reg, s, info);
          GrewLater(w.reg, Commit(w.reg, s, info));
        }
      case _ =>
    }
  }

  lemma {:induction false} RunLater(w: World, ops: seq<Op>)
    requires Inv(w) && IsRun(w, ops)
    ensures Later(w.reg, Run(w, ops).reg)
    decreases |ops|
  {
    if ops == [] {
      LaterReflexive(w.reg);
    } else {
      StepLater(w, ops[0]);
      StepKeeps(w, ops[0]);
      RunLater(Step(w, ops[0]), ops[1..]);
      LaterTransitive(w.reg, Step(w, ops[0]).reg, Run(w, ops).reg);
    }
  }

  // ---------------------------------------------------------------- stale snapshots

  /** A snapshot of a generation that was issued: a later generation of the view may exist. */
  predicate Issued(r: Registry, s: Snap) {
    s.cell in r.cells && s.gen <= r.cells[s.cell].epoch && s.gen < r.nextGen
  }

  /** Once a snapshot has stopped being current it never becomes current again. */
  lemma StaleForever(w: World, ops: seq<Op>, s: Snap)
    requires Reachable(w) && IsRun(w, ops)
    requires Issued(w.reg, s) && !Current(w.reg, s)
    ensures !Current(Run(w, ops).reg, s)
  {
    ReachableInv(w);
    RunLater(w, ops);
    assert CellLater(w.reg, s.cell, Run(w, ops).reg);
  }

  /** The snapshot an operation acts through, if it acts through one. */
  function Through(w: World, op: Op): Option<Snap> {
    match op
    case Driving(me, _) => if me in w.permits then Some(w.permits[me].snap) else None
    case DropStepping(me, _, _) => if me in w.permits then Some(w.permits[me].snap) else None
    case AddingHandle(s, _) => Some(s)
    case DroppingHandles(s) => Some(s)
    case RegisterSession(s, _, _) => Some(s)
    case RegisterRouting(s, _) => Some(s)
    case Refresh(s, _, _, _, _) => Some(s)
    case CloserStepping(me, _, _) =>
      if me in w.closers && (w.closers[me].Disconnecting? || w.closers[me].Unregistering?
                             || w.closers[me].ClosingOwner? || w.closers[me].RetiringOne?)
      then Some(w.closers[me].snap) else None
    case _ => None
  }

  /** Nothing that is done through a stale snapshot touches a view, the registry or a routing table. */
  lemma StaleHasNoEffect(w: World, op: Op)
    requires Enabled(w, op)
    requires Through(w, op).Some? && !Current(w.reg, Through(w, op).value)
    ensures Step(w, op).reg == w.reg
    ensures Step(w, op).tab == w.tab
  {
    match op {
      case Driving(me, choice) => StaleDriver(w, me, choice);
      case DropStepping(me, pick, spawn) => StaleDrop(w, w.permits[me], pick, spawn);
      case CloserStepping(me, pick, next) => StaleCloser(w, me, pick, next);
      case _ =>
    }
  }

  lemma StaleDriver(w: World, me: Id, choice: Choice)
    requires me in w.permits && w.permits[me].phase.Driving? && !Current(w.reg, w.permits[me].snap)
    ensures DoDrive(w, me, choice).reg == w.reg
    ensures DoDrive(w, me, choice).tab == w.tab
  {
    var p := w.permits[me];
    match Next(p.kind, p.phase.pc, choice, Heard(w.reg, p.snap)) {
      case Ask(_, _, _) =>
      case _ =>
    }
  }

  lemma StaleDrop(w: World, p: Permit, pick: Option<Addr>, spawn: Id)
    requires p.phase.Dropping? && !Current(w.reg, p.snap)
    ensures DropEffect(w, p, pick, spawn).reg == w.reg
    ensures DropEffect(w, p, pick, spawn).tab == w.tab
  {
    var w' := DropEffect(w, p, pick, spawn);
    match p.phase.step {
      case Check => assert w'.reg == w.reg && w'.tab == w.tab;
      case Clean1 => assert w'.reg == w.reg && w'.tab == w.tab;
      case Clean2 => assert w'.reg == w.reg && w'.tab == w.tab;
      case Unregister1 => assert w'.reg == w.reg && w'.tab == w.tab;
      case Unregister2 => assert w'.reg == w.reg && w'.tab == w.tab;
      case Forget => assert w'.reg == w.reg && w'.tab == w.tab;
      case _ => assert w'.reg == w.reg && w'.tab == w.tab;
    }
  }

  lemma StaleCloser(w: World, me: Id, pick: Option<Addr>, next: (NodeId, nat))
    requires me in w.closers
    requires Through(w, CloserStepping(me, pick, next)).Some?
    requires !Current(w.reg, w.closers[me].snap)
    ensures DoCloserStep(w, me, pick, next).reg == w.reg
    ensures DoCloserStep(w, me, pick, next).tab == w.tab
  {
    match w.closers[me] {
      case Unregistering(_) =>
      case _ =>
    }
  }

  /** Together: a snapshot that is stale once is powerless for the rest of every run. */
  lemma StalePowerless(w: World, ops: seq<Op>, s: Snap, op: Op)
    requires Reachable(w) && IsRun(w, ops) && Enabled(Run(w, ops), op)
    requires Issued(w.reg, s) && !Current(w.reg, s)
    requires Through(Run(w, ops), op) == Some(s)
    ensures Step(Run(w, ops), op).reg == Run(w, ops).reg
    ensures Step(Run(w, ops), op).tab == Run(w, ops).tab
  {
    StaleForever(w, ops, s);
    StaleHasNoEffect(Run(w, ops), op);
  }

  // ---------------------------------------------------------------- the registry

  /** In every reachable state nothing retired can be found, every live view is found under its own
      identity, stored handles follow reconnects and no two views share a generation. */
  lemma RegistryConsistent(w: World)
    requires Reachable(w)
    ensures RegistryOk(w.reg)
  {
    ReachableInv(w);
  }

  /** An identity leads to the same view for as long as that view lives. */
  lemma IdentityStays(w: World, ops: seq<Op>, k: NodeId)
    requires Reachable(w) && IsRun(w, ops) && k in w.reg.byId
    requires Live(Run(w, ops).reg, w.reg.byId[k].cell)
    ensures k in Run(w, ops).reg.byId && Run(w, ops).reg.byId[k].cell == w.reg.byId[k].cell
  {
    ReachableInv(w);
    RunLater(w, ops);
    assert AliasLater(w.reg, k, Run(w, ops).reg);
  }

  /** Retirement is immediate and total: no identity and no address leads to the view any more, and it
      will never be found again. */
  lemma RetirementIsFinal(w: World, s: Snap, w': World, ops: seq<Op>)
    requires Reachable(w) && Current(w.reg, s) && w' == w.(reg := Retire(w.reg, s)) && IsRun(w', ops)
    ensures var r := Run(w', ops).reg;
            && !Live(r, s.cell)
            && (forall k :: k in r.byId ==> r.byId[k].cell != s.cell)
            && (forall a :: a in r.byAddr ==> r.byAddr[a].cell != s.cell)
  {
    ReachableInv(w);
    RetireKeeps(w, s);
    RunKeeps(w', ops);
    RunLater(w', ops);
    assert CellLater(w'.reg, s.cell, Run(w', ops).reg);
  }

  // ---------------------------------------------------------------- encryption refresh

  /** Everything that has to be current for a refresh: the generation, its openness, the identities and
      endpoints of the new description, the routing object and its physical route. */
  ghost predicate StillCaptured(w: World, s: Snap, id: NodeId, original: Routing, info: NodeInfo) {
    && Current(w.reg, s)
    && (var state := w.reg.cells[s.cell].state; !state.Closed? && !state.Closing? && !state.FailedEstablish?)
    && w.reg.cells[s.cell].id in info.identities
    && (forall k :: k in info.identities && k in w.reg.byId ==> w.reg.byId[k].cell == s.cell)
    && (forall a :: a in info.endpoints && a in w.reg.byAddr ==> w.reg.byAddr[a].cell == s.cell)
    && id in w.tab.nodes && w.tab.nodes[id].ref == original.ref
    && original.route.remote in w.tab.sessions
    && w.tab.sessions[original.route.remote].ref == original.route.ref
  }

  /** Exactly the identities of the new description now lead to the captured view and the new routing. */
  ghost predicate Refreshed(w: World, w': World, c: Ref, info: NodeInfo, renewed: Routing) {
    && (forall k :: k in info.identities ==>
          && k in w'.reg.byId && w'.reg.byId[k] == View(c, None)
          && k in w'.tab.nodes && w'.tab.nodes[k] == renewed)
    && (forall k :: k !in info.identities ==>
          && (k in w'.reg.byId <==> k in w.reg.byId) && (k in w.reg.byId ==> w'.reg.byId[k] == w.reg.byId[k])
          && (k in w'.tab.nodes <==> k in w.tab.nodes) && (k in w.tab.nodes ==> w'.tab.nodes[k] == w.tab.nodes[k]))
    && w'.tab.sessions == w.tab.sessions && w'.tab.p2pNodes == w.tab.p2pNodes
  }

  /** A refresh is all or nothing: it commits exactly while everything it captured is still current, and
      otherwise changes nothing at all. */
  lemma RefreshIsAtomic(w: World, s: Snap, id: NodeId, original: Routing, info: NodeInfo, renewed: Routing)
    requires Enabled(w, Refresh(s, id, original, info, renewed))
    ensures var w' := Step(w, Refresh(s, id, original, info, renewed));
            if StillCaptured(w, s, id, original, info) then Refreshed(w, w', s.cell, info, renewed) else w' == w
  {
    CapturedIsCommit(w, s, id, original, info);
    if RefreshCommits(w, s, id, original, info) {
      CommittedAliases(w.reg, s, info);
      assert Refreshed(w, Step(w, Refresh(s, id, original, info, renewed)), s.cell, info, renewed);
    }
  }

  lemma CapturedIsCommit(w: World, s: Snap, id: NodeId, original: Routing, info: NodeInfo)
    ensures StillCaptured(w, s, id, original, info) <==> RefreshCommits(w, s, id, original, info)
  {
  }

  lemma CommittedAliases(r: Registry, s: Snap, info: NodeInfo)
    requires CommitAllowed(r, s, info)
    ensures Commit(r, s, info).byId == InsertAll(r.byId, info.identities, View(s.cell, None))
  {
  }

  // ---------------------------------------------------------------- publication

  /** A routing entry that is new or changed was published by a generation that is current and open, bears
      its number, and leads through the physical session that its address leads to. */
  lemma RoutesArePublishedCurrent(w: World, op: Op, k: NodeId)
    requires Enabled(w, op) && k in Step(w, op).tab.nodes
    requires k in w.tab.nodes ==> w.tab.nodes[k] != Step(w, op).tab.nodes[k]
    ensures Publishes(op) && PublicationOpen(w.reg, op.snap)
    ensures var t := Step(w, op).tab; t.nodes[k].generation == op.snap.gen && RouteCurrent(t, t.nodes[k].route)
  {
    if !Publishes(op) {
      OthersSweep(w, op);
    }
  }

  /** The same for physical sessions. */
  lemma SessionsArePublishedCurrent(w: World, op: Op, a: Addr)
    requires Enabled(w, op) && a in Step(w, op).tab.sessions
    requires a in w.tab.sessions ==> w.tab.sessions[a] != Step(w, op).tab.sessions[a]
    ensures op.RegisterSession? && PublicationOpen(w.reg, op.snap)
    ensures Step(w, op).tab.sessions[a] == op.session && op.session.generation == op.snap.gen
  {
    if !Publishes(op) {
      OthersSweep(w, op);
    }
  }

  // ---------------------------------------------------------------- at most one refresh

  /** A published routing that `id` does not lead to. */
  predicate Displaced(w: World, id: NodeId, ref: Ref) {
    ref in w.published && (id in w.tab.nodes ==> w.tab.nodes[id].ref != ref)
  }

  /** The operations that publish; every other operation can only remove table entries. */
  predicate Publishes(op: Op) {
    op.RegisterSession? || op.RegisterRouting? || op.Refresh?
  }

  /** The generations whose entries an operation removes. */
  function SweptGenerations(w: World, op: Op): set<nat> {
    if op.DropStepping? && op.me in w.permits && Unregisters(w.permits[op.me].phase) then
      {w.permits[op.me].snap.gen}
    else if op.CloserStepping? && op.me in w.closers
            && (w.closers[op.me].Unregistering? || w.closers[op.me].RetiringOne?) then
      {w.closers[op.me].snap.gen}
    else {}
  }

  predicate Unregisters(phase: Phase) {
    phase.Dropping? && (phase.step.Unregister1? || phase.step.Unregister2?)
  }

  /** The physical sessions whose entries an operation removes. */
  function SweptSessions(w: World, op: Op): set<Ref> {
    if op.CloserStepping? && op.me in w.closers && w.closers[op.me].Retiring? && w.closers[op.me].owners == {}
    then {w.closers[op.me].session.ref} else {}
  }

  /** The drop handler sweeps at most its own generation. */
  lemma DropSweeps(w: World, p: Permit, pick: Option<Addr>, spawn: Id)
    requires p.phase.Dropping?
    ensures OnlyDrops(w.tab, DropEffect(w, p, pick, spawn).tab,
                      if Unregisters(p.phase) then {p.snap.gen} else {}, {})
  {
    SweepsGeneration(w.tab, p.snap.gen);
    SweepsNothing(w.tab, if Unregisters(p.phase) then {p.snap.gen} else {}, {});
    var t := DropEffect(w, p, pick, spawn).tab;
    match p.phase.step {
      case Unregister1 => assert t == w.tab || t == SweepGeneration(w.tab, p.snap.gen);
      case Unregister2 => assert t == w.tab || t == SweepGeneration(w.tab, p.snap.gen);
      case Check => assert t == w.tab;
      case Clean1 => assert t == w.tab;
      case Clean2 => assert t == w.tab;
      case Forget => assert t == w.tab;
      case _ => assert t == w.tab;
    }
  }

  lemma UnregisteringSweeps(w: World, me: Id, s: Snap)
    ensures OnlyDrops(w.tab, CloserEffect(w, me, Unregistering(s)).tab, {s.gen}, {})
  {
    SweepsGeneration(w.tab, s.gen);
  }

  lemma RetiringOneSweeps(w: World, me: Id, session: Session, s: Snap, owners: set<(NodeId, nat)>)
    ensures OnlyDrops(w.tab, CloserEffect(w, me, RetiringOne(session, s, owners)).tab, {s.gen}, {})
  {
    SweepsRoutes(w.tab, s.gen);
  }

  lemma RetiringSweeps(w: World, me: Id, session: Session, owners: set<(NodeId, nat)>)
    ensures OnlyDrops(w.tab, CloserEffect(w, me, Retiring(session, owners)).tab, {},
                      if owners == {} then {session.ref} else {})
  {
    if owners == {} {
      SweepsSession(w.tab, session.ref);
    } else {
      SweepsNothing(w.tab, {}, {});
    }
  }

  lemma OtherStagesSweepNothing(w: World, me: Id, k: Closer)
    requires !k.Unregistering? && !k.Retiring? && !k.RetiringOne?
    ensures CloserEffect(w, me, k).tab == w.tab
  {
  }

  /** A closing task sweeps a generation, the routes of a generation, or a session. */
  lemma CloserSweeps(w: World, me: Id, k: Closer)
    ensures OnlyDrops(w.tab, CloserEffect(w, me, k).tab,
                      if k.Unregistering? || k.RetiringOne? then {k.snap.gen} else {},
                      if k.Retiring? && k.owners == {} then {k.session.ref} else {})
  {
    if k.Unregistering? {
      UnregisteringSweeps(w, me, k.snap);
    } else if k.RetiringOne? {
      RetiringOneSweeps(w, me, k.session, k.snap, k.owners);
    } else if k.Retiring? {
      RetiringSweeps(w, me, k.session, k.owners);
    } else {
      OtherStagesSweepNothing(w, me, k);
      SweepsNothing(w.tab, {}, {});
    }
  }

  lemma DriveTables(w: World, me: Id, choice: Choice)
    requires me in w.permits && w.permits[me].phase.Driving?
    ensures DoDrive(w, me, choice).tab == w.tab
  {
    var p := w.permits[me];
    match Next(p.kind, p.phase.pc, choice, Heard(w.reg, p.snap)) {
      case Ask(_, _, _) =>
      case _ =>
    }
  }

  lemma QuietTables(w: World, op: Op)
    requires Enabled(w, op) && !Publishes(op) && !op.DropStepping? && !op.CloserStepping?
    ensures Step(w, op).tab == w.tab
  {
    if op.Driving? {
      DriveTables(w, op.me, op.choice);
    } else if op.Locking? {
      assert Step(w, op).tab == w.tab;
    } else {
      assert Step(w, op).tab == w.tab;
    }
  }

  /** An operation that does not publish only removes entries, and only those of the generations and
      sessions it sweeps. */
  lemma OthersSweep(w: World, op: Op)
    requires Enabled(w, op) && !Publishes(op)
    ensures OnlyDrops(w.tab, Step(w, op).tab, SweptGenerations(w, op), SweptSessions(w, op))
  {
    if op.DropStepping? {
      DropSweeps(w, w.permits[op.me], op.pick, op.spawn);
      assert SweptSessions(w, op) == {};
    } else if op.CloserStepping? {
      CloserSweeps(w, op.me, w.closers[op.me]);
    } else {
      QuietTables(w, op);
      SweepsNothing(w.tab, SweptGenerations(w, op), SweptSessions(w, op));
    }
  }

  /** Objects that were created stay known, and do not change. */
  predicate Remembers(w: World, w': World, ref: Ref) {
    && (ref in w.published ==> ref in w'.published)
    && (ref in w.created ==> ref in w'.created && w'.created[ref] == w.created[ref])
  }

  lemma DriveRemembers(w: World, me: Id, choice: Choice, ref: Ref)
    requires me in w.permits && w.permits[me].phase.Driving?
    ensures Remembers(w, DoDrive(w, me, choice), ref)
  {
    var p := w.permits[me];
    match Next(p.kind, p.phase.pc, choice, Heard(w.reg, p.snap)) {
      case Ask(_, _, _) =>
      case _ =>
    }
  }

  lemma DropRemembers(w: World, p: Permit, pick: Option<Addr>, spawn: Id, ref: Ref)
    requires p.phase.Dropping?
    ensures Remembers(w, DropEffect(w, p, pick, spawn), ref)
  {
    var w' := DropEffect(w, p, pick, spawn);
    match p.phase.step {
      case Check => assert Remembers(w, w', ref);
      case Clean1 => assert Remembers(w, w', ref);
      case Clean2 => assert Remembers(w, w', ref);
      case Unregister1 => assert Remembers(w, w', ref);
      case Unregister2 => assert Remembers(w, w', ref);
      case Forget => assert Remembers(w, w', ref);
      case _ => assert Remembers(w, w', ref);
    }
  }

  lemma CloserStepRemembers(w: World, me: Id, pick: Option<Addr>, next: (NodeId, nat), ref: Ref)
    requires me in w.closers
    ensures Remembers(w, DoCloserStep(w, me, pick, next), ref)
  {
    var w' := DoCloserStep(w, me, pick, next);
    match w.closers[me] {
      case Disconnecting(_) => assert Remembers(w, w', ref);
      case Unregistering(_) => assert Remembers(w, w', ref);
      case LookingUp(_) => assert Remembers(w, w', ref);
      case ClosingOwner(_, _) => assert Remembers(w, w', ref);
      case Collecting(_) => assert Remembers(w, w', ref);
      case Retiring(_, _) => assert Remembers(w, w', ref);
      case RetiringOne(_, _, _) => assert Remembers(w, w', ref);
      case Ended => assert Remembers(w, w', ref);
    }
  }

  lemma PublishingRemembers(w: World, op: Op, ref: Ref)
    requires Enabled(w, op) && (op.RegisterSession? || op.RegisterRouting? || op.Refresh?)
    ensures Remembers(w, Step(w, op), ref)
  {
    if op.RegisterSession? {
      assert Remembers(w, DoRegisterSession(w, op.snap, op.session, op.routing), ref);
    } else if op.RegisterRouting? {
      assert Remembers(w, DoRegisterRouting(w, op.snap, op.route), ref);
    } else {
      assert Remembers(w, DoRefresh(w, op.snap, op.id, op.original, op.info, op.refreshed), ref);
    }
  }

  lemma QuietRemembers(w: World, op: Op)
    requires Enabled(w, op) && !op.Driving? && !op.DropStepping? && !op.CloserStepping?
    requires !op.RegisterSession? && !op.RegisterRouting? && !op.Refresh?
    ensures Step(w, op).created == w.created && Step(w, op).published == w.published
  {
  }

  lemma StepRemembers(w: World, op: Op, ref: Ref)
    requires Enabled(w, op)
    ensures Remembers(w, Step(w, op), ref)
  {
    if op.Driving? {
      DriveRemembers(w, op.me, op.choice, ref);
    } else if op.DropStepping? {
      DropRemembers(w, w.permits[op.me], op.pick, op.spawn, ref);
    } else if op.CloserStepping? {
      CloserStepRemembers(w, op.me, op.pick, op.next, ref);
    } else if op.RegisterSession? || op.RegisterRouting? || op.Refresh? {
      PublishingRemembers(w, op, ref);
    } else {
      QuietRemembers(w, op);
    }
  }

  lemma DisplacedByPublishing(t: Tables, keys: seq<NodeId>, r: Routing, id: NodeId, ref: Ref)
    requires (id in t.nodes ==> t.nodes[id].ref != ref) && r.ref != ref
    ensures var nodes := PutAll(t.nodes, keys, r); id in nodes ==> nodes[id].ref != ref
  {
  }

  lemma DisplacedByPublication(w: World, op: Op, id: NodeId, ref: Ref)
    requires Enabled(w, op) && Publishes(op) && Displaced(w, id, ref)
    ensures Displaced(Step(w, op), id, ref)
  {
    var w' := Step(w, op);
    if op.RegisterSession? {
      if op.routing.Some? {
        DisplacedByPublishing(w.tab, op.session.identities, op.routing.value, id, ref);
      }
      assert Displaced(w', id, ref);
    } else if op.RegisterRouting? {
      DisplacedByPublishing(w.tab, op.route.identities, op.route, id, ref);
      assert Displaced(w', id, ref);
    } else {
      DisplacedByPublishing(w.tab, op.refreshed.identities, op.refreshed, id, ref);
      assert Displaced(w', id, ref);
    }
  }

  lemma DisplacedStep(w: World, op: Op, id: NodeId, ref: Ref)
    requires Enabled(w, op) && Displaced(w, id, ref)
    ensures Displaced(Step(w, op), id, ref)
  {
    if Publishes(op) {
      DisplacedByPublication(w, op, id, ref);
    } else {
      OthersSweep(w, op);
      StepRemembers(w, op, ref);
    }
  }

  lemma {:induction false} DisplacedForever(w: World, ops: seq<Op>, id: NodeId, ref: Ref)
    requires IsRun(w, ops) && Displaced(w, id, ref)
    ensures Displaced(Run(w, ops), id, ref)
    decreases |ops|
  {
    if ops != [] {
      DisplacedStep(w, ops[0], id, ref);
      DisplacedForever(Step(w, ops[0]), ops[1..], id, ref);
    }
  }

  // ---------------------------------------------------------------- how sessions get established

  /** In every reachable state, each entry into `Established` that any view ever announced came right
      after one whole initialization method, and after a lock granted since the last close or failure. */
  lemma EstablishedIsEarned(w: World, c: Ref, i: nat) returns (j: nat)
    requires Reachable(w) && c in w.reg.cells
    requires i < |w.reg.cells[c].log| && w.reg.cells[c].log[i].Established?
    requires !Before(w.reg.cells[c].log, i).Established?
    ensures CompletedMethod(w.reg.cells[c].log, i)
    ensures j < i && GrantedAt(w.reg.cells[c].log, j)
    ensures forall k :: j <= k < i ==> w.reg.cells[c].log[k].Busy()
  {
    ReachableInv(w);
    assert CellOk(w.reg, c);
    EstablishedOnlyAfterWholeMethod(w.reg.cells[c].log, i);
    j := EstablishedSinceGrant(w.reg.cells[c].log, i);
  }

  /** Whatever the network does, a permit holder in its own unclosed generation never has a transition
      refused; a finished success can be established; and no excluded method is ever entered. */
  lemma HolderNeverRefused(w: World, me: Id, choice: Choice)
    requires Reachable(w) && Mine(w, me) && !w.permits[me].kind.AcceptReverse? && w.permits[me].phase.Driving?
    ensures var p := w.permits[me]; var s := w.reg.cells[p.snap.cell].state;
            var move := Next(p.kind, p.phase.pc, choice, Heard(w.reg, p.snap));
            && (move.Ask? ==> Try(w.reg, p.snap, move.req).1)
            && (p.phase.pc.Done? && p.phase.pc.result.Success? ==> s.Allowed(Established(p.phase.pc.result.session)))
            && (p.kind.Resolve? ==>
                  && (Direct in p.kind.dontUse ==> !s.Outgoing? || s.init == ConnectIntent)
                  && (Reverse in p.kind.dontUse ==> !s.ReverseConnection?)
                  && (Relay in p.kind.dontUse ==> !s.Relayed?))
  {
    ReachableInv(w);
    var p := w.permits[me];
    var cell := w.reg.cells[p.snap.cell];
    MineAgrees(w, me);
    NextGood(p.kind, p.phase.pc, choice, cell.state, cell.log);
  }
}
