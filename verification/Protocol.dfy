/**
 The session lifecycle protocol as a transition system.

 Many tasks share the registry and the routing tables. They run on one thread and are suspended
 only where they await, so each operation below is the code one task runs between two suspension
 points. An `Op` names who acts and supplies whatever the environment decides; `Step` is its effect.
 A run is any sequence of enabled operations: every interleaving of any number of tasks.
 */
module Protocol {
  import opened Wrappers
  import opened SessionStates
  import opened Registries
  import opened RoutingTables
  import opened Drivers

  type Id = nat

  datatype Permit = Permit(snap: Snap, kind: Kind, phase: Phase)

  // ---------------------------------------------------------------- waiting for a peer

  datatype WaitFor = Finish | End | FirstMessage | ReverseVerdict

  /** Does seeing `s` end the wait? */
  predicate Ends(what: WaitFor, s: SessionState) {
    match what
    case Finish => s.Established? || s.Closed? || s.FailedEstablish?
    case End => s.Closed? || s.FailedEstablish?
    case FirstMessage =>
      || s == Outgoing(ChallengeHandshake) || s == Incoming(ChallengeHandshake)
      || s == ReverseConnection(InProgress(ChallengeHandshake))
      || s.Closed? || s.Closing? || s.FailedEstablish?
    case ReverseVerdict =>
      || (s.ReverseConnection? && s.reverse.Finished?)
      || s.Closed? || s.Closing? || s.FailedEstablish?
  }

  /** A wait ends with the state that was waited for, or with an error if the waiter has lagged behind. */
  datatype WaitPhase = Fresh | Waiting | Returned(seen: SessionState) | Lagged

  /** How many announcements are kept for a waiter: ten, rounded up to a power of two by the channel. */
  const CAPACITY: nat := 16

  /** A waiter subscribed at announcement `start` and has received those before `cursor`. */
  datatype Waiter = Waiter(snap: Snap, what: WaitFor, start: nat, cursor: nat, phase: WaitPhase)

  // ---------------------------------------------------------------- closing tasks

  datatype Closer =
    | Disconnecting(snap: Snap)
    | Unregistering(snap: Snap)
    | LookingUp(session: Session)
    | ClosingOwner(session: Session, snap: Snap)
    | Collecting(session: Session)
    | Retiring(session: Session, owners: set<(NodeId, nat)>)
    | RetiringOne(session: Session, snap: Snap, owners: set<(NodeId, nat)>)
    | Ended

  /** `holder` and `closing` record which permit was granted a view's latest generation and which
      task last started closing it; `created` and `published` are the objects ever created. */
  datatype World = World(
    reg: Registry,
    tab: Tables,
    permits: map<Id, Permit>,
    waiters: map<Id, Waiter>,
    closers: map<Id, Closer>,
    holder: map<Ref, Id>,
    closing: map<Ref, Id>,
    created: map<Ref, Session>,
    published: set<Ref>)

  const Init := World(EmptyRegistry, EmptyTables, map[], map[], map[], map[], map[], map[], {})

  datatype Op =
    | Guarding(id: NodeId, addrs: seq<Addr>, c: Ref)
    | Updating(info: NodeInfo, c: Ref)
    | Locking(c: Ref, kind: Kind, me: Id, cursor: nat)
    | Driving(me: Id, choice: Choice)
    | Aborting(me: Id)
    | DroppingPermit(me: Id)
    | DropStepping(me: Id, pick: Option<Addr>, spawn: Id)
    | AddingHandle(snap: Snap, h: nat)
    | DroppingHandles(snap: Snap)
    | Subscribing(snap: Snap, what: WaitFor, me: Id)
    | Reading(me: Id)
    | Receiving(me: Id)
    | StartDisconnect(id: NodeId, me: Id)
    | StartUnregister(id: NodeId, me: Id)
    | StartClose(session: Session, me: Id)
    | StartUnregisterSession(session: Session, me: Id)
    | CloserStepping(me: Id, pick: Option<Addr>, next: (NodeId, nat))
    | RegisterSession(snap: Snap, session: Session, routing: Option<Routing>)
    | RegisterRouting(snap: Snap, route: Routing)
    | Refresh(snap: Snap, id: NodeId, original: Routing, info: NodeInfo, refreshed: Routing)

  /** The `pick`ed address leads to some session of generation `gen`, if there is any. */
  predicate PickOk(t: Tables, gen: nat, pick: Option<Addr>) {
    match pick
    case Some(a) => a in t.sessions && t.sessions[a].generation == gen
    case None => forall a :: a in t.sessions ==> t.sessions[a].generation != gen
  }

  predicate Known(created: map<Ref, Session>, s: Session) {
    s.ref in created && created[s.ref] == s
  }

  /** The session was registered for generation `gen`. */
  predicate Owned(created: map<Ref, Session>, session: Ref, gen: nat) {
    session in created && created[session].generation == gen
  }

  /** A handshake that reaches its end returns the session it has registered for its generation; a relayed
      connection returns the registered session of the relay. */
  predicate Vouched(created: map<Ref, Session>, p: Permit, choice: Choice)
    requires p.phase.Driving?
  {
    choice.Go? ==>
      match p.phase.pc
      case Shake(Ready, _) => Owned(created, choice.n, p.snap.gen)
      case Accepting(Ready) => Owned(created, choice.n, p.snap.gen)
      case RelayRegister => choice.n in created
      case _ => true
  }

  predicate Enabled(w: World, op: Op) {
    match op
    case Guarding(_, _, c) => c !in w.reg.cells
    case Updating(_, c) => c !in w.reg.cells
    case Locking(c, kind, me, cursor) =>
      && c in w.reg.cells && !kind.AcceptReverse?
      && me !in w.permits && me !in w.waiters && cursor <= |w.reg.cells[c].log|
    case Driving(me, choice) =>
      me in w.permits && w.permits[me].phase.Driving? && Vouched(w.created, w.permits[me], choice)
    case Aborting(me) => me in w.permits && w.permits[me].phase.Driving? && !w.permits[me].phase.pc.Done?
    case DroppingPermit(me) => me in w.permits && w.permits[me].phase.Driving?
    case DropStepping(me, pick, spawn) =>
      && me in w.permits && w.permits[me].phase.Dropping? && spawn !in w.closers
      && PickOk(w.tab, w.permits[me].snap.gen, pick)
    case AddingHandle(s, _) => s.cell in w.reg.cells
    case DroppingHandles(_) => true
    case Subscribing(s, _, me) => s.cell in w.reg.cells && me !in w.permits && me !in w.waiters
    case Reading(me) => me in w.waiters && w.waiters[me].phase.Fresh?
    case Receiving(me) => me in w.waiters && w.waiters[me].phase.Waiting? && !Blocked(w, me)
    case StartDisconnect(id, me) => id in w.reg.byId && me !in w.closers
    case StartUnregister(id, me) => id in w.reg.byId && me !in w.closers
    case StartClose(session, me) =>
      && Known(w.created, session) && me !in w.closers
      && (session.remote in w.tab.sessions ==> w.tab.sessions[session.remote].ref == session.ref)
    case StartUnregisterSession(session, me) => Known(w.created, session) && me !in w.closers
    case CloserStepping(me, pick, next) =>
      && me in w.closers && !w.closers[me].Ended?
      && (w.closers[me].Unregistering? ==> PickOk(w.tab, w.closers[me].snap.gen, pick))
      && (w.closers[me].Retiring? && w.closers[me].owners != {} ==> next in w.closers[me].owners)
    case RegisterSession(s, session, routing) =>
      && session.ref !in w.created && session.generation == s.gen
      && (routing.None? <==> session.identities == [])
      && (routing.Some? ==>
            var r := routing.value;
            && r.ref !in w.published && r.route == session && r.generation == s.gen
            && r.identities == session.identities && r.defaultId == session.defaultId)
    case RegisterRouting(_, r) => r.ref !in w.published && Known(w.created, r.route)
    case Refresh(s, _, original, info, refreshed) =>
      && original.ref in w.published && original.generation == s.gen && Known(w.created, original.route)
      && refreshed.ref !in w.published && refreshed.route == original.route
      && refreshed.generation == s.gen && refreshed.identities == info.identities
      && info.identities != [] && info.identities[0] == original.defaultId == refreshed.defaultId
  }

  /** The waiter has handled everything it received and its queue is empty. */
  predicate Blocked(w: World, me: Id) {
    && me in w.waiters
    && var x := w.waiters[me];
    && x.phase.Waiting? && x.snap.cell in w.reg.cells
    && x.cursor >= |w.reg.cells[x.snap.cell].log|
  }

  // ---------------------------------------------------------------- effects

  function SetPhase(w: World, me: Id, phase: Phase): World
    requires me in w.permits
  {
    w.(permits := w.permits[me := w.permits[me].(phase := phase)])
  }

  function DoLock(w: World, c: Ref, kind: Kind, me: Id, cursor: nat): World
    requires c in w.reg.cells
  {
    var (reg, lock) := LockSession(w.reg, View(c, None), kind.Accept?);
    match lock
    case Granted(s, reverse) =>
      var k := if reverse then AcceptReverse else kind;
      w.(reg := reg,
         permits := w.permits[me := Permit(s, k, Phase.Driving(Entry(k)))],
         holder := if reverse then w.holder else w.holder[c := me])
    case MustWait(s) =>
      w.(waiters := w.waiters[me := Waiter(s, Finish, cursor, cursor, Fresh)])
  }

  function DoMove(w: World, me: Id, move: Move): World
    requires me in w.permits
  {
    match move
    case Stop => w
    case Internal(pc) => SetPhase(w, me, Phase.Driving(pc))
    case Ask(req, accepted, refused) =>
      DoAsk(w, me, req, Phase.Driving(accepted), Phase.Driving(refused))
  }

  /** Ask for a state and continue according to the answer. */
  function DoAsk(w: World, me: Id, req: Request, accepted: Phase, refused: Phase): World
    requires me in w.permits
  {
    var (reg, ok) := Try(w.reg, w.permits[me].snap, req);
    SetPhase(w, me, if ok then accepted else refused).(reg := reg)
  }

  /** What a task bound to `s` can still receive. */
  function Heard(r: Registry, s: Snap): seq<SessionState> {
    if Current(r, s) then r.cells[s.cell].log else []
  }

  function DoDrive(w: World, me: Id, choice: Choice): World
    requires me in w.permits && w.permits[me].phase.Driving?
  {
    var p := w.permits[me];
    DoMove(w, me, Next(p.kind, p.phase.pc, choice, Heard(w.reg, p.snap)))
  }

  /** Retire a generation and sweep its table entries. */
  function Unregistered(w: World, s: Snap): World {
    if Current(w.reg, s) then w.(reg := Retire(w.reg, s), tab := SweepGeneration(w.tab, s.gen)) else w
  }

  /** The physical session of a generation that is being unregistered, if it has one. */
  function Handed(w: World, s: Snap, pick: Option<Addr>): Option<Session> {
    if Current(w.reg, s) && pick.Some? && pick.value in w.tab.sessions
    then Some(w.tab.sessions[pick.value]) else None
  }

  function Spawn(w: World, s: Option<Session>, me: Id): World {
    w.(closers := if s.Some? then w.closers[me := Collecting(s.value)] else w.closers)
  }

  function SeenState(r: Registry, s: Snap): SessionState {
    if Current(r, s) then r.cells[s.cell].state else Closed
  }

  /** Where the drop handler goes from here. */
  function NextDrop(r: Registry, p: Permit): Phase
    requires p.phase.Dropping?
  {
    var result := p.phase.result;
    match p.phase.step
    case Check =>
      var seen := SeenState(r, p.snap);
      if seen.Closed? || seen.Closing? then Dropped
      else if p.kind.AcceptReverse? then Dropping(FinishReverse, result)
      else if result.Failure? then Dropping(Fail1, result)
      else Dropping(Forget, result)
    case Fail1 => Dropping(Clean1, result)
    case Clean1 => Dropping(Unregister1, result)
    case Unregister1 => Dropped
    case Forget => Dropping(Publish, result)
    case Publish => if Try(r, p.snap, DropRequest(p)).1 then Dropped else Dropping(Clean2, result)
    case Clean2 => Dropping(Unregister2, result)
    case Unregister2 => Dropping(Fail2, result)
    case Fail2 => Dropped
    case FinishReverse => Dropped
  }

  /** The transition the drop handler asks for. */
  function DropRequest(p: Permit): Request
    requires p.phase.Dropping?
  {
    var result := p.phase.result;
    match p.phase.step
    case Publish => To(Established(if result.Success? then result.session else 0))
    case FinishReverse => To(ReverseConnection(Finished(result)))
    case _ => To(FailedEstablish)
  }

  function DropEffect(w: World, p: Permit, pick: Option<Addr>, spawn: Id): World
    requires p.phase.Dropping?
  {
    match p.phase.step
    case Check => w
    case Clean1 => w.(reg := AbortHandles(w.reg, p.snap).0)
    case Clean2 => w.(reg := AbortHandles(w.reg, p.snap).0)
    case Unregister1 => Spawn(Unregistered(w, p.snap), Handed(w, p.snap, pick), spawn)
    case Unregister2 => Spawn(Unregistered(w, p.snap), Handed(w, p.snap, pick), spawn)
    case Forget => w.(reg := ForgetHandles(w.reg, p.snap))
    case _ => w.(reg := Try(w.reg, p.snap, DropRequest(p)).0)
  }

  function DoDropStep(w: World, me: Id, pick: Option<Addr>, spawn: Id): World
    requires me in w.permits && w.permits[me].phase.Dropping?
  {
    var p := w.permits[me];
    DropEffect(w, p, pick, spawn).(permits := w.permits[me := p.(phase := NextDrop(w.reg, p))])
  }

  function Resume(x: Waiter, s: SessionState): Waiter {
    x.(phase := if Ends(x.what, s) then Returned(s) else Waiting)
  }

  function DoReceive(r: Registry, x: Waiter): Waiter
    requires x.snap.cell in r.cells
  {
    var log := r.cells[x.snap.cell].log;
    if x.cursor >= |log| then x
    else if !Current(r, x.snap) then Resume(x.(cursor := x.cursor + 1), Closed)
    else if |log| - x.cursor > CAPACITY then x.(phase := Lagged)
    else Resume(x.(cursor := x.cursor + 1), log[x.cursor])
  }

  /** The owners of the routes that use a session, and the session's own owner. */
  function Owners(t: Tables, s: Session): set<(NodeId, nat)> {
    (set k | k in t.nodes && t.nodes[k].route.ref == s.ref :: (k, t.nodes[k].generation))
    + {(s.defaultId, s.generation)}
  }

  function OwningGenerations(t: Tables, s: Session): set<nat> {
    set o | o in Owners(t, s) :: o.1
  }

  /** In the tables, `id` is routed through the session for generation `gen`. */
  predicate RoutedThrough(t: Tables, s: Session, id: NodeId, gen: nat) {
    id in t.nodes && t.nodes[id].route.ref == s.ref && t.nodes[id].generation == gen
  }

  /** A session concerns the peers that are routed through it and the peer it was registered for. */
  predicate ConcernedBy(t: Tables, s: Session, id: NodeId, gen: nat) {
    RoutedThrough(t, s, id, gen) || (id == s.defaultId && gen == s.generation)
  }

  ghost predicate GenerationConcerned(t: Tables, s: Session, gen: nat) {
    gen == s.generation || exists id: NodeId :: RoutedThrough(t, s, id, gen)
  }

  lemma OwnersAreConcerned(t: Tables, s: Session)
    ensures forall id: NodeId, gen: nat :: (id, gen) in Owners(t, s) <==> ConcernedBy(t, s, id, gen)
    ensures forall gen: nat :: gen in OwningGenerations(t, s) <==> GenerationConcerned(t, s, gen)
  {
    forall gen: nat ensures gen in OwningGenerations(t, s) <==> GenerationConcerned(t, s, gen) {
      if gen == s.generation {
        assert (s.defaultId, gen) in Owners(t, s);
      } else if GenerationConcerned(t, s, gen) {
        var id: NodeId :| RoutedThrough(t, s, id, gen);
        assert (id, gen) in Owners(t, s);
      } else if gen in OwningGenerations(t, s) {
        var o :| o in Owners(t, s) && o.1 == gen;
        assert RoutedThrough(t, s, o.0, gen);
      }
    }
  }

  /** Is generation `gen` still the one registered for `id`? */
  predicate Registered(r: Registry, id: NodeId, gen: nat) {
    id in r.byId && r.byId[id].cell in r.cells && Generation(r, r.byId[id]) == gen
  }

  function AfterLookUp(r: Registry, session: Session): Closer {
    var id := session.defaultId;
    if Registered(r, id, session.generation)
    then ClosingOwner(session, Snapshot(r, r.byId[id])) else Collecting(session)
  }

  function AfterPick(r: Registry, session: Session, next: (NodeId, nat), rest: set<(NodeId, nat)>): Closer {
    if Registered(r, next.0, next.1)
    then RetiringOne(session, Snapshot(r, r.byId[next.0]), rest) else Retiring(session, rest)
  }

  /** Where a closing task goes from here. */
  function AfterClosing(w: World, k: Closer, pick: Option<Addr>, next: (NodeId, nat)): Closer {
    match k
    case Disconnecting(s) => Unregistering(s)
    case Unregistering(s) =>
      var session := Handed(w, s, pick);
      if session.Some? then Collecting(session.value) else Ended
    case LookingUp(session) => AfterLookUp(w.reg, session)
    case ClosingOwner(session, _) => Collecting(session)
    case Collecting(session) => Retiring(session, Owners(w.tab, session))
    case Retiring(session, owners) =>
      if owners == {} then Ended else AfterPick(w.reg, session, next, owners - {next})
    case RetiringOne(session, _, owners) => Retiring(session, owners)
    case Ended => Ended
  }

  function CloserEffect(w: World, me: Id, k: Closer): World {
    match k
    case Disconnecting(s) => BeganClosing(w, me, s)
    case ClosingOwner(_, s) => BeganClosing(w, me, s)
    case Unregistering(s) => Unregistered(w, s)
    case Retiring(session, owners) =>
      w.(tab := if owners == {} then SweepSession(w.tab, session.ref) else w.tab)
    case RetiringOne(_, s, _) =>
      w.(reg := Retire(w.reg, s),
         tab := if Current(w.reg, s) then w.tab.(nodes := RoutesOtherThan(w.tab.nodes, s.gen)) else w.tab)
    case _ => w
  }

  function BeganClosing(w: World, me: Id, s: Snap): World {
    w.(reg := BeginClosing(w.reg, s),
       closing := if Current(w.reg, s) then w.closing[s.cell := me] else w.closing)
  }

  function DoCloserStep(w: World, me: Id, pick: Option<Addr>, next: (NodeId, nat)): World
    requires me in w.closers
  {
    var k := w.closers[me];
    CloserEffect(w, me, k).(closers := w.closers[me := AfterClosing(w, k, pick, next)])
  }

  function DoRegisterSession(w: World, s: Snap, session: Session, routing: Option<Routing>): World {
    if !PublicationOpen(w.reg, s) then w
    else w.(tab := PublishSession(w.tab, session, routing),
            created := w.created[session.ref := session],
            published := w.published + (if routing.Some? then {routing.value.ref} else {}))
  }

  function DoRegisterRouting(w: World, s: Snap, r: Routing): World {
    if !PublicationOpen(w.reg, s) || s.gen != r.generation || !RouteCurrent(w.tab, r.route) then w
    else w.(tab := PublishRouting(w.tab, r), published := w.published + {r.ref})
  }

  predicate RefreshCommits(w: World, s: Snap, id: NodeId, original: Routing, info: NodeInfo) {
    CommitAllowed(w.reg, s, info) && RefreshAllowed(w.tab, id, original)
  }

  function DoRefresh(w: World, s: Snap, id: NodeId, original: Routing, info: NodeInfo, renewed: Routing): World {
    if !RefreshCommits(w, s, id, original, info) then w
    else w.(reg := Commit(w.reg, s, info), tab := PublishRouting(w.tab, renewed),
            published := w.published + {renewed.ref})
  }

  function Step(w: World, op: Op): World
    requires Enabled(w, op)
  {
    match op
    case Guarding(id, addrs, c) => w.(reg := Guard(w.reg, id, addrs, c).0)
    case Updating(info, c) => w.(reg := Update(w.reg, info, c).0)
    case Locking(c, kind, me, cursor) => DoLock(w, c, kind, me, cursor)
    case Driving(me, choice) => DoDrive(w, me, choice)
    case Aborting(me) => SetPhase(w, me, Phase.Driving(Done(Failure)))
    case DroppingPermit(me) =>
      var pc := w.permits[me].phase.pc;
      SetPhase(w, me, Dropping(Check, if pc.Done? then pc.result else Failure))
    case DropStepping(me, pick, spawn) => DoDropStep(w, me, pick, spawn)
    case AddingHandle(s, h) => w.(reg := RegisterHandle(w.reg, s, h).0)
    case DroppingHandles(s) => w.(reg := ForgetHandles(w.reg, s))
    case Subscribing(s, what, me) =>
      var n := |w.reg.cells[s.cell].log|;
      w.(waiters := w.waiters[me := Waiter(s, what, n, n, Fresh)])
    case Reading(me) =>
      var x := w.waiters[me];
      w.(waiters := w.waiters[me := Resume(x, SeenState(w.reg, x.snap))])
    case Receiving(me) =>
      var x := w.waiters[me];
      if x.snap.cell in w.reg.cells then w.(waiters := w.waiters[me := DoReceive(w.reg, x)]) else w
    case StartDisconnect(id, me) =>
      if w.reg.byId[id].cell in w.reg.cells
      then w.(closers := w.closers[me := Disconnecting(Snapshot(w.reg, w.reg.byId[id]))]) else w
    case StartUnregister(id, me) =>
      if w.reg.byId[id].cell in w.reg.cells
      then w.(closers := w.closers[me := Unregistering(Snapshot(w.reg, w.reg.byId[id]))]) else w
    case StartClose(session, me) => w.(closers := w.closers[me := LookingUp(session)])
    case StartUnregisterSession(session, me) => w.(closers := w.closers[me := Collecting(session)])
    case CloserStepping(me, pick, next) => DoCloserStep(w, me, pick, next)
    case RegisterSession(s, session, routing) => DoRegisterSession(w, s, session, routing)
    case RegisterRouting(s, r) => DoRegisterRouting(w, s, r)
    case Refresh(s, id, original, info, renewed) => DoRefresh(w, s, id, original, info, renewed)
  }

  // ---------------------------------------------------------------- runs

  predicate IsRun(w: World, ops: seq<Op>)
    decreases |ops|
  {
    ops == [] || (Enabled(w, ops[0]) && IsRun(Step(w, ops[0]), ops[1..]))
  }

  function Run(w: World, ops: seq<Op>): World
    requires IsRun(w, ops)
    decreases |ops|
  {
    if ops == [] then w else Run(Step(w, ops[0]), ops[1..])
  }
}
