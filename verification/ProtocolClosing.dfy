/** Closing is exact and final: what the closing tasks remove, what they leave alone, and why nothing
    they removed comes back. */
module ProtocolClosing {
  import opened Wrappers
  import opened Registries
  import opened RoutingTables
  import opened Drivers
  import opened Protocol
  import opened ProtocolInvariant
  import opened ProtocolSteps
  import opened ProtocolTheorems
  import opened ProtocolProgress
  import opened ProtocolOwnership

  lemma ShrinkingForgets(t: Tables, t': Tables, gen: nat, ref: Ref)
    requires Shrinks(t, t')
    ensures !MentionsSession(t, ref) ==> !MentionsSession(t', ref)
    ensures !MentionsGeneration(t, gen) ==> !MentionsGeneration(t', gen)
  {
  }

  lemma RoutingPublished(t: Tables, r: Routing, gen: nat, ref: Ref)
    ensures !MentionsSession(t, ref) && r.route.ref != ref ==> !MentionsSession(PublishRouting(t, r), ref)
    ensures !MentionsGeneration(t, gen) && r.generation != gen ==> !MentionsGeneration(PublishRouting(t, r), gen)
  {
  }

  lemma SessionPublished(t: Tables, s: Session, routing: Option<Routing>, gen: nat, ref: Ref)
    requires routing.Some? ==> routing.value.route == s && routing.value.generation == s.generation
    ensures !MentionsSession(t, ref) && s.ref != ref ==> !MentionsSession(PublishSession(t, s, routing), ref)
    ensures !MentionsGeneration(t, gen) && s.generation != gen
            ==> !MentionsGeneration(PublishSession(t, s, routing), gen)
  {
  }

  // ---------------------------------------------------------------- closed sessions

  /** A session object that was registered once and that no table leads to any more. */
  predicate Gone(w: World, ref: Ref) {
    ref in w.created && !MentionsSession(w.tab, ref)
  }

  lemma GoneStep(w: World, op: Op, ref: Ref)
    requires Enabled(w, op) && Gone(w, ref)
    ensures Gone(Step(w, op), ref)
  {
    StepRemembers(w, op, ref);
    var t := Step(w, op).tab;
    if op.RegisterSession? {
      SessionPublished(w.tab, op.session, op.routing, 0, ref);
      assert !MentionsSession(t, ref);
    } else if op.RegisterRouting? {
      RoutingPublished(w.tab, op.route, 0, ref);
      assert !MentionsSession(t, ref);
    } else if op.Refresh? {
      RoutingPublished(w.tab, op.refreshed, 0, ref);
      assert !MentionsSession(t, ref);
    } else {
      OthersSweep(w, op);
      ShrinkingForgets(w.tab, t, 0, ref);
    }
  }

  lemma {:induction false} GoneForever(w: World, ops: seq<Op>, ref: Ref)
    requires IsRun(w, ops) && Gone(w, ref)
    ensures Gone(Run(w, ops), ref)
    decreases |ops|
  {
    if ops != [] {
      GoneStep(w, ops[0], ref);
      GoneForever(Step(w, ops[0]), ops[1..], ref);
    }
  }

  /** A closing task works on a session that was registered. */
  predicate ClosesRegistered(created: map<Ref, Session>, k: Closer) {
    k.Disconnecting? || k.Unregistering? || k.Ended? || k.session.ref in created
  }

  ghost predicate AllCloseRegistered(w: World) {
    forall k :: k in w.closers ==> ClosesRegistered(w.created, w.closers[k])
  }

  lemma HandedIsRegistered(w: World, s: Snap, pick: Option<Addr>)
    requires TablesOk(w.tab, w.created, w.published)
    ensures Handed(w, s, pick).Some? ==> Handed(w, s, pick).value.ref in w.created
  {
  }

  lemma DropLeavesClosers(w: World, p: Permit, pick: Option<Addr>, spawn: Id)
    requires p.phase.Dropping? && !Unregisters(p.phase)
    ensures DropEffect(w, p, pick, spawn).closers == w.closers
  {
    var closers := DropEffect(w, p, pick, spawn).closers;
    match p.phase.step {
      case Check => assert closers == w.closers;
      case Clean1 => assert closers == w.closers;
      case Clean2 => assert closers == w.closers;
      case Forget => assert closers == w.closers;
      case Fail1 => assert closers == w.closers;
      case Fail2 => assert closers == w.closers;
      case Publish => assert closers == w.closers;
      case FinishReverse => assert closers == w.closers;
    }
  }

  /** A closing task is advanced by its own steps only. */
  lemma CloserAdvances(w: World, op: Op, k: Id)
    requires Enabled(w, op) && k in w.closers
    ensures k in Step(w, op).closers
    ensures Step(w, op).closers[k] ==
            if op.CloserStepping? && op.me == k then AfterClosing(w, w.closers[k], op.pick, op.next) else w.closers[k]
  {
    var closers := Step(w, op).closers;
    if op.CloserStepping? {
      assert closers == w.closers[op.me := AfterClosing(w, w.closers[op.me], op.pick, op.next)];
    } else if op.DropStepping? {
      DropClosers(w, w.permits[op.me], op.pick, op.spawn, k);
    } else if op.Driving? {
      DriveLeavesClosers(w, op.me, op.choice);
    } else if op.Locking? {
      assert closers == w.closers;
    } else {
      OtherClosers(w, op, k);
    }
  }

  lemma OtherClosers(w: World, op: Op, k: Id)
    requires Enabled(w, op)
    requires !op.CloserStepping? && !op.DropStepping? && !op.Driving? && !op.Locking?
    ensures var closers := Step(w, op).closers;
            if k in w.closers then k in closers && closers[k] == w.closers[k]
            else k in closers ==> ClosesRegistered(w.created, closers[k])
  {
  }

  lemma DropClosers(w: World, p: Permit, pick: Option<Addr>, spawn: Id, k: Id)
    requires p.phase.Dropping? && spawn !in w.closers && k in w.closers
    ensures var closers := DropEffect(w, p, pick, spawn).closers; k in closers && closers[k] == w.closers[k]
  {
    if Unregisters(p.phase) {
      assert DropEffect(w, p, pick, spawn) == Spawn(Unregistered(w, p.snap), Handed(w, p.snap, pick), spawn);
    } else {
      DropLeavesClosers(w, p, pick, spawn);
    }
  }

  lemma DropSpawnsRegistered(w: World, p: Permit, pick: Option<Addr>, spawn: Id, k: Id)
    requires TablesOk(w.tab, w.created, w.published) && p.phase.Dropping?
    requires k !in w.closers
    ensures var closers := DropEffect(w, p, pick, spawn).closers;
            k in closers ==> ClosesRegistered(w.created, closers[k])
  {
    if Unregisters(p.phase) {
      HandedIsRegistered(w, p.snap, pick);
      assert DropEffect(w, p, pick, spawn) == Spawn(Unregistered(w, p.snap), Handed(w, p.snap, pick), spawn);
    } else {
      DropLeavesClosers(w, p, pick, spawn);
    }
  }

  lemma DriveLeavesClosers(w: World, me: Id, choice: Choice)
    requires me in w.permits && w.permits[me].phase.Driving?
    ensures DoDrive(w, me, choice).closers == w.closers
  {
    var p := w.permits[me];
    match Next(p.kind, p.phase.pc, choice, Heard(w.reg, p.snap)) {
      case Ask(_, _, _) =>
      case _ =>
    }
  }

  lemma StartsRegistered(w: World, op: Op, k: Id)
    requires TablesOk(w.tab, w.created, w.published) && Enabled(w, op)
    requires k !in w.closers
    ensures var closers := Step(w, op).closers; k in closers ==> ClosesRegistered(w.created, closers[k])
  {
    if op.CloserStepping? {
      assert Step(w, op).closers.Keys == w.closers.Keys;
    } else if op.DropStepping? {
      DropSpawnsRegistered(w, w.permits[op.me], op.pick, op.spawn, k);
    } else if op.Driving? {
      DriveLeavesClosers(w, op.me, op.choice);
    } else if op.Locking? {
      assert Step(w, op).closers == w.closers;
    } else {
      OtherClosers(w, op, k);
    }
  }

  lemma AdvanceStaysRegistered(w: World, k: Closer, pick: Option<Addr>, next: (NodeId, nat))
    requires TablesOk(w.tab, w.created, w.published) && ClosesRegistered(w.created, k)
    ensures ClosesRegistered(w.created, AfterClosing(w, k, pick, next))
  {
    if k.Unregistering? {
      HandedIsRegistered(w, k.snap, pick);
    }
  }

  lemma CloseRegisteredStep(w: World, op: Op)
    requires TablesOk(w.tab, w.created, w.published) && Enabled(w, op) && AllCloseRegistered(w)
    ensures AllCloseRegistered(Step(w, op))
  {
    var w' := Step(w, op);
    forall k | k in w'.closers ensures ClosesRegistered(w'.created, w'.closers[k]) {
      if k in w.closers {
        CloserAdvances(w, op, k);
        if op.CloserStepping? && op.me == k {
          AdvanceStaysRegistered(w, w.closers[k], op.pick, op.next);
        }
      } else {
        StartsRegistered(w, op, k);
      }
      CreatedStays(w, op, w'.closers[k]);
    }
  }

  lemma CreatedStays(w: World, op: Op, k: Closer)
    requires Enabled(w, op) && ClosesRegistered(w.created, k)
    ensures ClosesRegistered(Step(w, op).created, k)
  {
    if !k.Disconnecting? && !k.Unregistering? && !k.Ended? {
      StepRemembers(w, op, k.session.ref);
    }
  }

  lemma {:induction false} CloseRegisteredRun(w: World, ops: seq<Op>)
    requires Inv(w) && IsRun(w, ops) && AllCloseRegistered(w)
    ensures AllCloseRegistered(Run(w, ops))
    decreases |ops|
  {
    if ops != [] {
      CloseRegisteredStep(w, ops[0]);
      StepKeeps(w, ops[0]);
      CloseRegisteredRun(Step(w, ops[0]), ops[1..]);
    }
  }

  lemma ReachableClosesRegistered(w: World)
    requires Reachable(w)
    ensures AllCloseRegistered(w)
  {
    var ops :| IsRun(Init, ops) && Run(Init, ops) == w;
    InitInv();
    CloseRegisteredRun(Init, ops);
  }

  /** The last step of closing a session leaves no table entry that leads to it, and none appears
      again in the rest of any run. */
  lemma ClosingIsFinal(w: World, me: Id, op: Op, ops: seq<Op>)
    requires Reachable(w) && Enabled(w, op) && op.CloserStepping? && op.me == me
    requires w.closers[me].Retiring? && w.closers[me].owners == {}
    requires IsRun(Step(w, op), ops)
    ensures !MentionsSession(Run(Step(w, op), ops).tab, w.closers[me].session.ref)
  {
    var session := w.closers[me].session;
    ReachableClosesRegistered(w);
    assert ClosesRegistered(w.created, w.closers[me]);
    SweepsAreComplete(w.tab, 0, session.ref);
    assert Step(w, op).tab == SweepSession(w.tab, session.ref);
    StepRemembers(w, op, session.ref);
    GoneForever(Step(w, op), ops, session.ref);
  }

  // ---------------------------------------------------------------- finished generations

  /** A generation that was issued and that no live view has any more. */
  ghost predicate Over(r: Registry, gen: nat) {
    gen < r.nextGen && forall c :: Live(r, c) ==> r.cells[c].epoch != gen
  }

  /** Generations are numbered upwards, so one that is over does not come back. */
  lemma OverStep(w: World, op: Op, gen: nat)
    requires Enabled(w, op) && Over(w.reg, gen)
    ensures Over(Step(w, op).reg, gen)
  {
    StepLater(w, op);
    var r := Step(w, op).reg;
    forall c | Live(r, c) ensures r.cells[c].epoch != gen {
      if c in w.reg.cells {
        assert CellLater(w.reg, c, r);
      }
    }
  }

  /** Nobody can publish anything for a generation that is over. */
  lemma OverIsShut(r: Registry, s: Snap)
    requires Over(r, s.gen)
    ensures !Current(r, s)
  {
    if Current(r, s) {
      assert Live(r, s.cell);
    }
  }

  /** Every entry of the generation has been removed and no new one can be published. */
  ghost predicate Swept(w: World, gen: nat) {
    Over(w.reg, gen) && !MentionsGeneration(w.tab, gen)
  }

  lemma SweptStep(w: World, op: Op, gen: nat)
    requires Enabled(w, op) && Swept(w, gen)
    ensures Swept(Step(w, op), gen)
  {
    OverStep(w, op, gen);
    var t := Step(w, op).tab;
    if op.RegisterSession? {
      if op.snap.gen == gen {
        OverIsShut(w.reg, op.snap);
      }
      SessionPublished(w.tab, op.session, op.routing, gen, 0);
      assert !MentionsGeneration(t, gen);
    } else if op.RegisterRouting? {
      if op.snap.gen == gen {
        OverIsShut(w.reg, op.snap);
      }
      RoutingPublished(w.tab, op.route, gen, 0);
      assert !MentionsGeneration(t, gen);
    } else if op.Refresh? {
      if op.snap.gen == gen {
        OverIsShut(w.reg, op.snap);
      }
      RoutingPublished(w.tab, op.refreshed, gen, 0);
      assert !MentionsGeneration(t, gen);
    } else {
      OthersSweep(w, op);
      ShrinkingForgets(w.tab, t, gen, 0);
    }
  }

  lemma {:induction false} SweptForever(w: World, ops: seq<Op>, gen: nat)
    requires IsRun(w, ops) && Swept(w, gen)
    ensures Swept(Run(w, ops), gen)
    decreases |ops|
  {
    if ops != [] {
      SweptStep(w, ops[0], gen);
      SweptForever(Step(w, ops[0]), ops[1..], gen);
    }
  }

  lemma UnregisteredIsSwept(w: World, s: Snap)
    requires RegistryOk(w.reg) && Current(w.reg, s)
    ensures Swept(Unregistered(w, s), s.gen)
  {
    SweepsAreComplete(w.tab, s.gen, 0);
    assert CellOk(w.reg, s.cell);
    var r := Retire(w.reg, s);
    forall c | Live(r, c) ensures r.cells[c].epoch != s.gen {
      assert c != s.cell && c in w.reg.cells;
    }
  }

  /** Unregistering a current generation removes all its entries from all three tables, and none
      appears again in the rest of any run. */
  lemma UnregisteringIsFinal(w: World, op: Op, s: Snap, ops: seq<Op>)
    requires Reachable(w) && Enabled(w, op) && Current(w.reg, s) && IsRun(Step(w, op), ops)
    requires || (op.CloserStepping? && w.closers[op.me] == Unregistering(s))
             || (op.DropStepping? && w.permits[op.me].snap == s && Unregisters(w.permits[op.me].phase))
    ensures !MentionsGeneration(Run(Step(w, op), ops).tab, s.gen)
  {
    ReachableInv(w);
    UnregisteredIsSwept(w, s);
    UnregisteringStep(w, op, s);
    assert Swept(Step(w, op), s.gen);
    SweptForever(Step(w, op), ops, s.gen);
  }

  lemma UnregisteringStep(w: World, op: Op, s: Snap)
    requires Enabled(w, op)
    requires || (op.CloserStepping? && w.closers[op.me] == Unregistering(s))
             || (op.DropStepping? && w.permits[op.me].snap == s && Unregisters(w.permits[op.me].phase))
    ensures Step(w, op).reg == Unregistered(w, s).reg
    ensures Step(w, op).tab == Unregistered(w, s).tab
  {
    if op.CloserStepping? {
      assert Step(w, op) == Unregistered(w, s).(closers := Step(w, op).closers);
    } else {
      var p := w.permits[op.me];
      assert DropEffect(w, p, op.pick, op.spawn) == Spawn(Unregistered(w, s), Handed(w, s, op.pick), op.spawn);
    }
  }

  /** Task `k` is at work on the session, or has ended and left nothing that leads to it. */
  predicate ClosingDown(w: World, k: Id, session: Session) {
    k in w.closers &&
    match w.closers[k]
    case Collecting(s) => s == session
    case Retiring(s, _) => s == session
    case RetiringOne(s, _, _) => s == session
    case Ended => Gone(w, session.ref)
    case _ => false
  }

  lemma ClosingDownStep(w: World, op: Op, k: Id, session: Session)
    requires Enabled(w, op) && session.ref in w.created && ClosingDown(w, k, session)
    ensures ClosingDown(Step(w, op), k, session)
  {
    CloserAdvances(w, op, k);
    if w.closers[k].Ended? {
      GoneStep(w, op, session.ref);
    } else if op.CloserStepping? && op.me == k && w.closers[k].Retiring? && w.closers[k].owners == {} {
      SweepsAreComplete(w.tab, 0, session.ref);
      assert Step(w, op).tab == SweepSession(w.tab, session.ref);
      StepRemembers(w, op, session.ref);
    }
  }

  lemma {:induction false} ClosingDownForever(w: World, ops: seq<Op>, k: Id, session: Session)
    requires IsRun(w, ops) && session.ref in w.created && ClosingDown(w, k, session)
    ensures ClosingDown(Run(w, ops), k, session)
    decreases |ops|
  {
    if ops != [] {
      ClosingDownStep(w, ops[0], k, session);
      StepRemembers(w, ops[0], session.ref);
      ClosingDownForever(Step(w, ops[0]), ops[1..], k, session);
    }
  }

  lemma Handover(w: World, op: Op, s: Snap)
    requires Enabled(w, op) && Current(w.reg, s)
    requires exists a :: a in w.tab.sessions && w.tab.sessions[a].generation == s.gen
    requires || (op.CloserStepping? && w.closers[op.me] == Unregistering(s))
             || (op.DropStepping? && w.permits[op.me].snap == s && Unregisters(w.permits[op.me].phase))
    ensures op.pick.Some? && op.pick.value in w.tab.sessions && w.tab.sessions[op.pick.value].generation == s.gen
    ensures var closers := Step(w, op).closers; var k := if op.CloserStepping? then op.me else op.spawn;
            k in closers && closers[k] == Collecting(w.tab.sessions[op.pick.value])
  {
    var session := w.tab.sessions[op.pick.value];
    assert Handed(w, s, op.pick) == Some(session);
    if op.CloserStepping? {
      assert Step(w, op).closers == w.closers[op.me := Collecting(session)];
    } else {
      assert DropEffect(w, w.permits[op.me], op.pick, op.spawn)
             == Spawn(Unregistered(w, s), Some(session), op.spawn);
    }
  }

  /** Unregistering hands the physical session of the generation, if there is one, to a closing task. That
      task never turns to anything else, and when it has ended nothing leads to the session any more. */
  lemma UnregisteringHandsOver(w: World, op: Op, s: Snap, a: Addr, ops: seq<Op>)
    requires Reachable(w) && Enabled(w, op) && Current(w.reg, s) && IsRun(Step(w, op), ops)
    requires a in w.tab.sessions && w.tab.sessions[a].generation == s.gen
    requires || (op.CloserStepping? && w.closers[op.me] == Unregistering(s))
             || (op.DropStepping? && w.permits[op.me].snap == s && Unregisters(w.permits[op.me].phase))
    ensures var closers := Step(w, op).closers; var k := if op.CloserStepping? then op.me else op.spawn;
            && k in closers && closers[k].Collecting? && closers[k].session.generation == s.gen
            && closers[k].session in w.tab.sessions.Values
            && ClosingDown(Run(Step(w, op), ops), k, closers[k].session)
  {
    ReachableInv(w);
    Handover(w, op, s);
    var session := w.tab.sessions[op.pick.value];
    assert Known(w.created, session);
    StepRemembers(w, op, session.ref);
    ClosingDownForever(Step(w, op), ops, if op.CloserStepping? then op.me else op.spawn, session);
  }

  // ---------------------------------------------------------------- retired owners

  /** No route belongs to the generation any more and none can be published. */
  ghost predicate RoutesSwept(w: World, gen: nat) {
    Over(w.reg, gen) && forall k :: k in w.tab.nodes ==> w.tab.nodes[k].generation != gen
  }

  lemma RoutesSweptStep(w: World, op: Op, gen: nat)
    requires Enabled(w, op) && RoutesSwept(w, gen)
    ensures RoutesSwept(Step(w, op), gen)
  {
    OverStep(w, op, gen);
    var t := Step(w, op).tab;
    forall k | k in t.nodes ensures t.nodes[k].generation != gen {
      if k in w.tab.nodes && w.tab.nodes[k] == t.nodes[k] {
      } else {
        RoutesArePublishedCurrent(w, op, k);
        if op.snap.gen == gen {
          OverIsShut(w.reg, op.snap);
        }
      }
    }
  }

  lemma {:induction false} RoutesSweptForever(w: World, ops: seq<Op>, gen: nat)
    requires IsRun(w, ops) && RoutesSwept(w, gen)
    ensures RoutesSwept(Run(w, ops), gen)
    decreases |ops|
  {
    if ops != [] {
      RoutesSweptStep(w, ops[0], gen);
      RoutesSweptForever(Step(w, ops[0]), ops[1..], gen);
    }
  }

  /** Closing a session retires the generations that route through it: none of their routes remains, and
      none appears again in the rest of any run. */
  lemma RetiringOwnersIsFinal(w: World, op: Op, ops: seq<Op>)
    requires Reachable(w) && Enabled(w, op) && op.CloserStepping? && w.closers[op.me].RetiringOne?
    requires Current(w.reg, w.closers[op.me].snap) && IsRun(Step(w, op), ops)
    ensures forall k :: k in Run(Step(w, op), ops).tab.nodes ==>
              Run(Step(w, op), ops).tab.nodes[k].generation != w.closers[op.me].snap.gen
  {
    var s := w.closers[op.me].snap;
    ReachableInv(w);
    UnregisteredIsSwept(w, s);
    RetiringStep(w, op, s);
    RoutesSweptForever(Step(w, op), ops, s.gen);
  }

  lemma RetiringStep(w: World, op: Op, s: Snap)
    requires Enabled(w, op) && op.CloserStepping? && w.closers[op.me].RetiringOne? && w.closers[op.me].snap == s
    requires Current(w.reg, s)
    ensures Step(w, op).reg == Retire(w.reg, s)
    ensures Step(w, op).tab.nodes == RoutesOtherThan(w.tab.nodes, s.gen)
  {
  }

  // ---------------------------------------------------------------- what a closing task may touch

  /** A closing task that has collected the owners and will sweep no generation but theirs and no session
      but the one it closes. */
  ghost predicate Within(k: Closer, session: Session, owners: set<(NodeId, nat)>) {
    match k
    case Retiring(s, rest) => s == session && rest <= owners
    case RetiringOne(s, snap, rest) => s == session && rest <= owners && exists o :: o in owners && o.1 == snap.gen
    case Ended => true
    case _ => false
  }

  lemma WithinAdvances(w: World, k: Closer, pick: Option<Addr>, next: (NodeId, nat), session: Session,
                       owners: set<(NodeId, nat)>)
    requires Within(k, session, owners) && (k.Retiring? && k.owners != {} ==> next in k.owners)
    ensures Within(AfterClosing(w, k, pick, next), session, owners)
  {
    if k.Retiring? && k.owners != {} {
      assert next in owners;
    }
  }

  lemma {:induction false} WithinForever(w: World, ops: seq<Op>, me: Id, session: Session, owners: set<(NodeId, nat)>)
    requires IsRun(w, ops) && me in w.closers && Within(w.closers[me], session, owners)
    ensures me in Run(w, ops).closers && Within(Run(w, ops).closers[me], session, owners)
    decreases |ops|
  {
    if ops != [] {
      CloserAdvances(w, ops[0], me);
      if ops[0].CloserStepping? && ops[0].me == me {
        WithinAdvances(w, w.closers[me], ops[0].pick, ops[0].next, session, owners);
      }
      WithinForever(Step(w, ops[0]), ops[1..], me, session, owners);
    }
  }

  /** Once a closing task has collected the owners of a session, none of its later steps removes an
      entry of any other generation that leads through another session, whatever happens in between. */
  lemma ClosingIsExact(w: World, collect: Op, ops: seq<Op>, op: Op)
    requires Enabled(w, collect) && collect.CloserStepping? && w.closers[collect.me].Collecting?
    requires IsRun(Step(w, collect), ops) && Enabled(Run(Step(w, collect), ops), op)
    requires op.CloserStepping? && op.me == collect.me
    ensures var session := w.closers[collect.me].session;
            var gens := OwningGenerations(w.tab, session);
            var w' := Run(Step(w, collect), ops);
            && (forall g :: g in gens <==> GenerationConcerned(w.tab, session, g))
            && OnlyDrops(w'.tab, Step(w', op).tab, gens, {session.ref})
  {
    var session := w.closers[collect.me].session;
    OwnersAreConcerned(w.tab, session);
    var owners := Owners(w.tab, session);
    CloserAdvances(w, collect, collect.me);
    WithinForever(Step(w, collect), ops, op.me, session, owners);
    var w' := Run(Step(w, collect), ops);
    OthersSweep(w', op);
    var gens := OwningGenerations(w.tab, session);
    assert SweptGenerations(w', op) <= gens;
    assert SweptSessions(w', op) <= {session.ref};
  }

  // ---------------------------------------------------------------- what a closing task must not leave

  /** `id` leads to the live view `c`, which is in generation `gen`. */
  predicate HeldIn(r: Registry, id: NodeId, gen: nat, c: Ref) {
    id in r.byId && r.byId[id] == View(c, None) && Live(r, c) && r.cells[c].epoch == gen
  }

  /** A generation ends with its view: once the view is retired or goes on to another generation, no live view
      has this one. */
  lemma HeldOrOver(w: World, op: Op, id: NodeId, gen: nat, c: Ref)
    requires Inv(w) && Enabled(w, op) && HeldIn(w.reg, id, gen, c)
    ensures HeldIn(Step(w, op).reg, id, gen, c) || Over(Step(w, op).reg, gen)
  {
    StepLater(w, op);
    StepKeeps(w, op);
    var r, r' := w.reg, Step(w, op).reg;
    assert CellLater(r, c, r') && CellOk(r, c);
    if !(Live(r', c) && r'.cells[c].epoch == gen) {
      forall d | Live(r', d) ensures r'.cells[d].epoch != gen {
        if d in r.cells {
          assert CellLater(r, d, r');
        }
      }
    }
  }

  /** The task still has to retire generation `gen`, which it knows as that of `id`, or it is over. */
  ghost predicate StillOwes(w: World, k: Closer, id: NodeId, gen: nat, c: Ref) {
    || Over(w.reg, gen)
    || (&& HeldIn(w.reg, id, gen, c)
        && match k
           case Retiring(_, owners) => (id, gen) in owners
           case RetiringOne(_, snap, owners) => (id, gen) in owners || snap == Snap(c, gen)
           case _ => false)
  }

  lemma OwnStepOwes(w: World, op: Op, id: NodeId, gen: nat, c: Ref)
    requires Inv(w) && Enabled(w, op) && op.CloserStepping? && StillOwes(w, w.closers[op.me], id, gen, c)
    ensures StillOwes(Step(w, op), AfterClosing(w, w.closers[op.me], op.pick, op.next), id, gen, c)
  {
    var k := w.closers[op.me];
    if Over(w.reg, gen) {
      OverStep(w, op, gen);
    } else {
      HeldOrOver(w, op, id, gen, c);
      if k.RetiringOne? {
        RetiringOneOwes(w, op, id, gen, c);
      } else {
        RetiringOwes(w, op, id, gen, c);
      }
    }
  }

  lemma RetiringOneOwes(w: World, op: Op, id: NodeId, gen: nat, c: Ref)
    requires Enabled(w, op) && op.CloserStepping? && w.closers[op.me].RetiringOne? && HeldIn(w.reg, id, gen, c)
    requires (id, gen) in w.closers[op.me].owners || w.closers[op.me].snap == Snap(c, gen)
    ensures var k := AfterClosing(w, w.closers[op.me], op.pick, op.next);
            k.Retiring? && ((id, gen) in k.owners || !HeldIn(Step(w, op).reg, id, gen, c))
  {
    assert Step(w, op).reg == Retire(w.reg, w.closers[op.me].snap);
  }

  lemma RetiringOwes(w: World, op: Op, id: NodeId, gen: nat, c: Ref)
    requires Enabled(w, op) && op.CloserStepping? && w.closers[op.me].Retiring? && HeldIn(w.reg, id, gen, c)
    requires (id, gen) in w.closers[op.me].owners
    ensures match AfterClosing(w, w.closers[op.me], op.pick, op.next)
            case Retiring(_, owners) => (id, gen) in owners
            case RetiringOne(_, snap, owners) => (id, gen) in owners || snap == Snap(c, gen)
            case _ => false
  {
    if op.next == (id, gen) {
      assert Registered(w.reg, id, gen);
    }
  }

  lemma {:induction false} OwesForever(w: World, ops: seq<Op>, me: Id, id: NodeId, gen: nat, c: Ref)
    requires Inv(w) && IsRun(w, ops) && me in w.closers && StillOwes(w, w.closers[me], id, gen, c)
    ensures me in Run(w, ops).closers && StillOwes(Run(w, ops), Run(w, ops).closers[me], id, gen, c)
    decreases |ops|
  {
    if ops != [] {
      var op, w' := ops[0], Step(w, ops[0]);
      CloserAdvances(w, op, me);
      if op.CloserStepping? && op.me == me {
        OwnStepOwes(w, op, id, gen, c);
      } else if Over(w.reg, gen) {
        OverStep(w, op, gen);
      } else {
        HeldOrOver(w, op, id, gen, c);
      }
      StepKeeps(w, op);
      OwesForever(w', ops[1..], me, id, gen, c);
    }
  }

  /** When a closing task has ended, every generation that was registered for a peer routed through the session
      when the task collected its owners, and that of the session's own peer, has been retired or superseded:
      no live view has it, in the rest of every run. */
  lemma ClosingLeavesNoOwner(w: World, collect: Op, ops: seq<Op>, id: NodeId, gen: nat)
    requires Reachable(w) && Enabled(w, collect) && collect.CloserStepping? && w.closers[collect.me].Collecting?
    requires IsRun(Step(w, collect), ops)
    requires collect.me in Run(Step(w, collect), ops).closers && Run(Step(w, collect), ops).closers[collect.me].Ended?
    requires ConcernedBy(w.tab, w.closers[collect.me].session, id, gen) && Registered(w.reg, id, gen)
    ensures Over(Run(Step(w, collect), ops).reg, gen)
    ensures forall i :: !Registered(Run(Step(w, collect), ops).reg, i, gen)
  {
    ReachableInv(w);
    var c := w.reg.byId[id].cell;
    var w1 := Step(w, collect);
    CollectingOwes(w, collect, id, gen, c);
    StepKeeps(w, collect);
    OwesForever(w1, ops, collect.me, id, gen, c);
    RunKeeps(w1, ops);
    OverIsUnregistered(Run(w1, ops).reg, gen);
  }

  lemma CollectingOwes(w: World, collect: Op, id: NodeId, gen: nat, c: Ref)
    requires Enabled(w, collect) && collect.CloserStepping? && w.closers[collect.me].Collecting?
    requires ConcernedBy(w.tab, w.closers[collect.me].session, id, gen) && HeldIn(w.reg, id, gen, c)
    ensures var w1 := Step(w, collect);
            w1.reg == w.reg && collect.me in w1.closers && StillOwes(w1, w1.closers[collect.me], id, gen, c)
  {
    OwnersAreConcerned(w.tab, w.closers[collect.me].session);
    CloserAdvances(w, collect, collect.me);
  }

  lemma OverIsUnregistered(r: Registry, gen: nat)
    requires RegistryOk(r) && Over(r, gen)
    ensures forall i :: !Registered(r, i, gen)
  {
    forall i ensures !Registered(r, i, gen) {
      if i in r.byId {
        assert Live(r, r.byId[i].cell);
      }
    }
  }

  /** The operation makes `id` lead to a view that exists already. */
  predicate Aliases(op: Op, id: NodeId) {
    (op.Updating? || op.Refresh?) && id in op.info.identities
  }

  /** `id` leads where it led before, or nowhere, or to a new view. */
  predicate SameOrNew(r: Registry, r': Registry, id: NodeId) {
    id in r'.byId ==> (id in r.byId && r'.byId[id] == r.byId[id]) || r'.byId[id].cell !in r.cells
  }

  lemma GuardKeys(r: Registry, asked: NodeId, addrs: seq<Addr>, c: Ref, id: NodeId)
    requires c !in r.cells
    ensures SameOrNew(r, Guard(r, asked, addrs, c).0, id)
  {
  }

  lemma UpdateKeys(r: Registry, info: NodeInfo, c: Ref, id: NodeId)
    requires id !in info.identities
    ensures SameOrNew(r, Update(r, info, c).0, id)
  {
  }

  lemma CommitKeys(r: Registry, s: Snap, info: NodeInfo, id: NodeId)
    requires CommitAllowed(r, s, info) && id !in info.identities
    ensures SameOrNew(r, Commit(r, s, info), id)
  {
  }

  lemma QuietKeys(w: World, op: Op, id: NodeId)
    requires Enabled(w, op) && !Aliases(op, id)
    requires !op.Locking? && !op.Driving? && !op.DropStepping? && !op.CloserStepping?
    ensures SameOrNew(w.reg, Step(w, op).reg, id)
  {
    if op.Guarding? {
      GuardKeys(w.reg, op.id, op.addrs, op.c, id);
    } else if op.Updating? {
      UpdateKeys(w.reg, op.info, op.c, id);
    } else if op.Refresh? {
      if RefreshCommits(w, op.snap, op.id, op.original, op.info) {
        CommitKeys(w.reg, op.snap, op.info, id);
      }
    } else {
      assert Step(w, op).reg.byId == w.reg.byId;
    }
  }

  lemma KeyComesFrom(w: World, op: Op, id: NodeId)
    requires Enabled(w, op) && !Aliases(op, id)
    ensures SameOrNew(w.reg, Step(w, op).reg, id)
  {
    if op.Locking? {
      LockedRegistry(w, op.c, op.kind, op.me, op.cursor);
      LockVerdict(w.reg, op.c, op.kind.Accept?);
    } else if op.Driving? {
      DriveRegistry(w, op.me, op.choice);
    } else if op.DropStepping? {
      DropRegistry(w, w.permits[op.me], op.pick, op.spawn);
    } else if op.CloserStepping? {
      CloserRegistry(w, op.me, w.closers[op.me]);
    } else {
      QuietKeys(w, op, id);
    }
  }

  lemma StaysUnregistered(r: Registry, r': Registry, id: NodeId, gen: nat)
    requires ReachableOk(r, r.byId) && ReachableOk(r', r'.byId) && Later(r, r') && SameOrNew(r, r', id)
    requires gen < r.nextGen && !Registered(r, id, gen)
    ensures !Registered(r', id, gen)
  {
    if id in r.byId {
      assert CellLater(r, r.byId[id].cell, r');
    }
  }

  lemma UnregisteredStep(w: World, op: Op, id: NodeId, gen: nat)
    requires Inv(w) && Enabled(w, op) && gen < w.reg.nextGen && !Registered(w.reg, id, gen) && !Aliases(op, id)
    ensures gen < Step(w, op).reg.nextGen && !Registered(Step(w, op).reg, id, gen)
  {
    StepLater(w, op);
    StepKeeps(w, op);
    KeyComesFrom(w, op, id);
    StaysUnregistered(w.reg, Step(w, op).reg, id, gen);
  }

  lemma {:induction false} UnregisteredForever(w: World, ops: seq<Op>, id: NodeId, gen: nat)
    requires Inv(w) && IsRun(w, ops) && gen < w.reg.nextGen && !Registered(w.reg, id, gen)
    requires forall i :: 0 <= i < |ops| ==> !Aliases(ops[i], id)
    ensures !Registered(Run(w, ops).reg, id, gen)
    decreases |ops|
  {
    if ops != [] {
      UnregisteredStep(w, ops[0], id, gen);
      StepKeeps(w, ops[0]);
      UnregisteredForever(Step(w, ops[0]), ops[1..], id, gen);
    }
  }

  /** So a peer that was routed through the session is not registered for that generation afterwards, unless its
      generation was registered without it and the peer has been added as an alias in the meantime. */
  lemma ClosedPeersAreUnregistered(w: World, collect: Op, ops: seq<Op>, id: NodeId, gen: nat)
    requires Reachable(w) && Enabled(w, collect) && collect.CloserStepping? && w.closers[collect.me].Collecting?
    requires IsRun(Step(w, collect), ops)
    requires collect.me in Run(Step(w, collect), ops).closers && Run(Step(w, collect), ops).closers[collect.me].Ended?
    requires ConcernedBy(w.tab, w.closers[collect.me].session, id, gen) && gen < w.reg.nextGen
    requires Registered(w.reg, id, gen) || forall i :: 0 <= i < |ops| ==> !Aliases(ops[i], id)
    ensures !Registered(Run(Step(w, collect), ops).reg, id, gen)
  {
    if Registered(w.reg, id, gen) {
      ClosingLeavesNoOwner(w, collect, ops, id, gen);
    } else {
      ReachableInv(w);
      StepKeeps(w, collect);
      CloserRegistry(w, collect.me, w.closers[collect.me]);
      UnregisteredForever(Step(w, collect), ops, id, gen);
    }
  }
}
