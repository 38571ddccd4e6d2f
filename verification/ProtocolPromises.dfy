/** Promises that the code keeps only under a condition: the exact condition, proved for all calls and
    all runs, and a run in which the promise fails. */
module ProtocolPromises {
  import opened Wrappers
  import opened SessionStates
  import opened Registries
  import opened RoutingTables
  import opened Drivers
  import opened Protocol
  import opened ProtocolInvariant
  import opened ProtocolSteps
  import opened ProtocolTheorems
  import opened ProtocolOwnership

  // ---------------------------------------------------------------- longer runs

  /** One more operation at the end of a run. */
  lemma {:induction false} RunSnoc(w: World, ops: seq<Op>, op: Op)
    requires IsRun(w, ops) && Enabled(Run(w, ops), op)
    ensures IsRun(w, ops + [op]) && Run(w, ops + [op]) == Step(Run(w, ops), op)
    decreases |ops|
  {
    var more := ops + [op];
    if ops == [] {
      assert more[0] == op && more[1..] == [];
      assert IsRun(Step(w, op), []);
    } else {
      assert more[0] == ops[0] && more[1..] == ops[1..] + [op];
      RunSnoc(Step(w, ops[0]), ops[1..], op);
    }
  }

  lemma {:induction false} RunAppend(w: World, a: seq<Op>, b: seq<Op>)
    requires IsRun(w, a) && IsRun(Run(w, a), b)
    ensures IsRun(w, a + b) && Run(w, a + b) == Run(Run(w, a), b)
    decreases |a|
  {
    if a == [] {
      assert a + b == b;
    } else {
      assert (a + b)[0] == a[0] && (a + b)[1..] == a[1..] + b;
      RunAppend(Step(w, a[0]), a[1..], b);
    }
  }

  lemma ThreeSteps(w: World, a: Op, b: Op, c: Op)
    requires Enabled(w, a) && Enabled(Step(w, a), b) && Enabled(Step(Step(w, a), b), c)
    ensures IsRun(w, [a]) && Run(w, [a]) == Step(w, a)
    ensures IsRun(w, [a, b, c]) && Run(w, [a, b, c]) == Step(Step(Step(w, a), b), c)
  {
    assert IsRun(w, []) && Run(w, []) == w && [] + [a] == [a] && [a] + [b] == [a, b] && [a, b] + [c] == [a, b, c];
    RunSnoc(w, [], a);
    RunSnoc(w, [a], b);
    RunSnoc(w, [a, b], c);
  }

  lemma TwoMoreSteps(w: World, ops: seq<Op>, d: Op, e: Op)
    requires IsRun(w, ops) && Enabled(Run(w, ops), d) && Enabled(Step(Run(w, ops), d), e)
    ensures IsRun(w, ops + [d, e]) && Run(w, ops + [d, e]) == Step(Step(Run(w, ops), d), e)
  {
    RunSnoc(w, ops, d);
    RunSnoc(w, ops + [d], e);
    assert ops + [d] + [e] == ops + [d, e];
  }

  lemma FiveSteps(w: World, a: Op, b: Op, c: Op, d: Op, e: Op)
    requires Enabled(w, a) && Enabled(Step(w, a), b) && Enabled(Step(Step(w, a), b), c)
    requires var w3 := Step(Step(Step(w, a), b), c); Enabled(w3, d) && Enabled(Step(w3, d), e)
    ensures IsRun(w, [a, b, c, d, e])
    ensures Run(w, [a, b, c, d, e]) == Step(Step(Step(Step(Step(w, a), b), c), d), e)
  {
    ThreeSteps(w, a, b, c);
    TwoMoreSteps(w, [a, b, c], d, e);
    assert [a, b, c] + [d, e] == [a, b, c, d, e];
  }

  lemma ReachableStep(w: World, op: Op)
    requires Reachable(w) && Enabled(w, op)
    ensures Reachable(Step(w, op))
  {
    var ops :| IsRun(Init, ops) && Run(Init, ops) == w;
    RunSnoc(Init, ops, op);
  }

  lemma ReachableRun(w: World, ops: seq<Op>)
    requires Reachable(w) && IsRun(w, ops)
    ensures Reachable(Run(w, ops))
  {
    var before :| IsRun(Init, before) && Run(Init, before) == w;
    RunAppend(Init, before, ops);
  }

  // ---------------------------------------------------------------- one view per requested identity

  /** The call asks for a registered identity, or names no address that is known. */
  predicate Named(r: Registry, id: NodeId, addrs: seq<Addr>) {
    id in r.byId || forall a :: a in addrs ==> a !in r.byAddr
  }

  lemma NamedCallRegisters(r: Registry, id: NodeId, addrs: seq<Addr>, c: Ref)
    requires c !in r.cells && Named(r, id, addrs)
    ensures var (r', v) := Guard(r, id, addrs, c); id in r'.byId && r'.byId[id] == v
  {
    FirstByAddrIn(r.byAddr, addrs);
  }

  /** Any other call returns the view of whichever peer a known address belongs to, and registers nothing. */
  lemma UnnamedCallFinds(r: Registry, id: NodeId, addrs: seq<Addr>, c: Ref)
    requires !Named(r, id, addrs)
    ensures var (r', v) := Guard(r, id, addrs, c);
            r' == r && exists a :: a in addrs && a in r.byAddr && r.byAddr[a] == v
  {
    FirstByAddrIn(r.byAddr, addrs);
  }

  /** As long as the view lives, everybody who asks for the identity is given that view. */
  ghost predicate SharedWhileAlive(w: World, id: NodeId, c: Ref) {
    forall ops, addrs, d ::
      IsRun(w, ops) && Live(Run(w, ops).reg, c) && d !in Run(w, ops).reg.cells ==>
        Guard(Run(w, ops).reg, id, addrs, d).1.cell == c
  }

  lemma NamedIsShared(w: World, id: NodeId, c: Ref)
    requires Reachable(w) && id in w.reg.byId && w.reg.byId[id].cell == c
    ensures SharedWhileAlive(w, id, c)
  {
    forall ops, addrs, d | IsRun(w, ops) && Live(Run(w, ops).reg, c) && d !in Run(w, ops).reg.cells
      ensures Guard(Run(w, ops).reg, id, addrs, d).1.cell == c
    {
      IdentityStays(w, ops, id);
    }
  }

  lemma UnnamedIsNotShared(w: World, id: NodeId, c: Ref, d: Ref)
    requires id !in w.reg.byId && Live(w.reg, c) && d !in w.reg.cells
    ensures !SharedWhileAlive(w, id, c)
  {
    assert IsRun(w, []) && Run(w, []) == w;
    assert Guard(w.reg, id, [], d).1.cell == d;
  }

  /** The view a caller gets is the one everybody else gets for that identity, for as long as it lives,
      exactly when the identity was registered or none of the addresses was known. */
  lemma GuardSharesIffNamed(w: World, id: NodeId, addrs: seq<Addr>, c: Ref)
    requires Reachable(w) && c !in w.reg.cells
    ensures SharedWhileAlive(Step(w, Guarding(id, addrs, c)), id, Guard(w.reg, id, addrs, c).1.cell)
            <==> Named(w.reg, id, addrs)
  {
    var v := Guard(w.reg, id, addrs, c).1;
    var w' := Step(w, Guarding(id, addrs, c));
    ReachableInv(w);
    if Named(w.reg, id, addrs) {
      NamedCallRegisters(w.reg, id, addrs, c);
      ReachableStep(w, Guarding(id, addrs, c));
      NamedIsShared(w', id, v.cell);
    } else {
      UnnamedCallFinds(w.reg, id, addrs, c);
      UnnamedIsNotShared(w', id, v.cell, c);
    }
  }

  /** Two callers that ask for the same identity in this way never hold ordinary permits at the same time,
      whatever happens between their calls and afterwards. */
  lemma NamedRequestsExclude(w: World, id: NodeId, addrs: seq<Addr>, c: Ref, between: seq<Op>,
                             addrs': seq<Addr>, d: Ref, after: seq<Op>, p: Id, q: Id)
    requires Reachable(w) && c !in w.reg.cells && Named(w.reg, id, addrs)
    requires var w1 := Step(w, Guarding(id, addrs, c));
             && IsRun(w1, between) && d !in Run(w1, between).reg.cells && Named(Run(w1, between).reg, id, addrs')
             && IsRun(Step(Run(w1, between), Guarding(id, addrs', d)), after)
    requires var w2 := Run(Step(w, Guarding(id, addrs, c)), between);
             var w3 := Run(Step(w2, Guarding(id, addrs', d)), after);
             && OrdinaryOn(w3, p, Guard(w.reg, id, addrs, c).1.cell)
             && OrdinaryOn(w3, q, Guard(w2.reg, id, addrs', d).1.cell)
    ensures p == q
  {
    var w1 := Step(w, Guarding(id, addrs, c));
    var w2 := Run(w1, between);
    var w2' := Step(w2, Guarding(id, addrs', d));
    var w3 := Run(w2', after);
    NamedCallRegisters(w.reg, id, addrs, c);
    NamedCallRegisters(w2.reg, id, addrs', d);
    ReachableStep(w, Guarding(id, addrs, c));
    ReachableRun(w1, between);
    ReachableStep(w2, Guarding(id, addrs', d));
    ReachableRun(w2', after);
    RegisteredThen(w1, between, d, id, addrs', after);
    IdentityStays(w2', after, id);
    OneHolder(w3, p, q);
  }

  /** An ordinary permit that is current for view `c`. */
  predicate OrdinaryOn(w: World, p: Id, c: Ref) {
    && p in w.permits && !w.permits[p].kind.AcceptReverse?
    && w.permits[p].snap.cell == c && Current(w.reg, w.permits[p].snap)
  }

  lemma OneHolder(w: World, p: Id, q: Id)
    requires Reachable(w) && p in w.permits && q in w.permits
    requires OrdinaryOn(w, p, w.permits[p].snap.cell) && OrdinaryOn(w, q, w.permits[p].snap.cell)
    ensures p == q
  {
    ReachableInv(w);
    assert PermitOk(w.reg, w.permits, w.holder, p);
    assert PermitOk(w.reg, w.permits, w.holder, q);
  }

  /** What was registered for the identity stays so while it lives, also across a second call. */
  lemma RegisteredThen(w: World, between: seq<Op>, d: Ref, id: NodeId, addrs: seq<Addr>, after: seq<Op>)
    requires Reachable(w) && id in w.reg.byId && IsRun(w, between) && d !in Run(w, between).reg.cells
    requires IsRun(Step(Run(w, between), Guarding(id, addrs, d)), after)
    ensures var w' := Run(Step(Run(w, between), Guarding(id, addrs, d)), after);
            Live(w'.reg, w.reg.byId[id].cell) ==>
              id in w'.reg.byId && w'.reg.byId[id].cell == w.reg.byId[id].cell
  {
    var op := Guarding(id, addrs, d);
    RunSnoc(w, between, op);
    RunAppend(w, between + [op], after);
    var w' := Run(w, between + [op] + after);
    if Live(w'.reg, w.reg.byId[id].cell) {
      IdentityStays(w, between + [op] + after, id);
    }
  }

  // ---------------------------------------------------------------- and when they do not

  /** Nothing but a new permit and a new generation of `c`. */
  predicate Locked(w: World, w': World, p: Id, c: Ref) {
    && OrdinaryOn(w', p, c) && w'.reg.byId == w.reg.byId && w'.waiters == w.waiters
    && w'.permits.Keys == w.permits.Keys + {p} && w'.reg.cells.Keys == w.reg.cells.Keys
    && (forall h :: h in w.permits ==> w'.permits[h] == w.permits[h])
    && (forall d :: d in w.reg.cells && d != c ==> w'.reg.cells[d] == w.reg.cells[d])
  }

  lemma FreeViewIsGranted(w: World, c: Ref, p: Id)
    requires Live(w.reg, c) && (w.reg.cells[c].state.Closed? || w.reg.cells[c].state.FailedEstablish?)
    requires p !in w.permits && p !in w.waiters
    ensures Enabled(w, Locking(c, Resolve({}), p, 0))
    ensures Locked(w, Step(w, Locking(c, Resolve({}), p, 0)), p, c)
  {
    LockVerdict(w.reg, c, false);
    var w' := Step(w, Locking(c, Resolve({}), p, 0));
    assert w'.reg == Bump(SetState(w.reg, c, Outgoing(ConnectIntent)), c);
    assert w'.permits == w.permits[p := Permit(Snap(c, w.reg.nextGen), Resolve({}), Phase.Driving(Start(Direct)))];
  }

  /** Any other live view that is not being closed is already held. */
  lemma BusyViewIsHeld(w: World, c: Ref) returns (h: Id)
    requires Reachable(w) && Live(w.reg, c)
    requires var s := w.reg.cells[c].state; !s.Closed? && !s.FailedEstablish? && !s.Closing?
    ensures OrdinaryOn(w, h, c)
  {
    ReachableInv(w);
    assert HeldOk(w.reg, w.permits, w.holder, c);
    h := w.holder[c];
  }

  /** A second caller that asks for an unregistered identity gets a view and a permit of its own. */
  lemma SecondCaller(w: World, id: NodeId, d: Ref, q: Id, h: Id, c: Ref)
    requires id !in w.reg.byId && d !in w.reg.cells && q !in w.permits && q !in w.waiters && OrdinaryOn(w, h, c)
    ensures Guard(w.reg, id, [], d).1 == View(d, None)
    ensures Enabled(w, Guarding(id, [], d))
    ensures Enabled(Step(w, Guarding(id, [], d)), Locking(d, Resolve({}), q, 0))
    ensures var w' := Step(Step(w, Guarding(id, [], d)), Locking(d, Resolve({}), q, 0));
            OrdinaryOn(w', h, c) && OrdinaryOn(w', q, d) && h != q && c != d
  {
    var w1 := Step(w, Guarding(id, [], d));
    assert w1.reg.cells == w.reg.cells[d := NewCell(id, w.reg.nextGen, NodeInfo([], [], 0))];
    FreeViewIsGranted(w1, d, q);
  }

  /** Still free for a caller that asks for `id`, with a holder of `c`. */
  predicate Prepared(w: World, w': World, h: Id, c: Ref, p: Id) {
    && OrdinaryOn(w', h, c) && w'.reg.byId == w.reg.byId && w'.waiters == w.waiters
    && w'.reg.cells.Keys == w.reg.cells.Keys && w'.permits.Keys <= w.permits.Keys + {p}
  }

  /** Somebody holds the view, or it still gives permits. */
  ghost predicate Holdable(w: World, c: Ref)
    requires c in w.reg.cells
  {
    w.reg.cells[c].state.Closing? ==> exists h :: OrdinaryOn(w, h, c)
  }

  /** The first caller is given a permit, or somebody else has it. */
  lemma FirstCaller(w: World, c: Ref, p: Id) returns (mid: seq<Op>, h: Id)
    requires Reachable(w) && Live(w.reg, c) && Holdable(w, c) && p !in w.permits && p !in w.waiters
    ensures IsRun(w, mid) && Prepared(w, Run(w, mid), h, c, p)
    ensures mid == [] || mid == [Locking(c, Resolve({}), p, 0)]
  {
    assert IsRun(w, []) && Run(w, []) == w;
    var state := w.reg.cells[c].state;
    if state.Closed? || state.FailedEstablish? {
      var op := Locking(c, Resolve({}), p, 0);
      FreeViewIsGranted(w, c, p);
      assert [] + [op] == [op];
      RunSnoc(w, [], op);
      mid, h := [op], p;
    } else if state.Closing? {
      h :| OrdinaryOn(w, h, c);
      mid := [];
    } else {
      h := BusyViewIsHeld(w, c);
      mid := [];
    }
  }

  /** The two operations of a second caller. */
  function SecondCall(id: NodeId, c: Ref, q: Id): seq<Op> {
    [Guarding(id, [], c), Locking(c, Resolve({}), q, 0)]
  }

  lemma SecondCallRuns(w: World, id: NodeId, d: Ref, q: Id, h: Id, c: Ref)
    requires id !in w.reg.byId && d !in w.reg.cells && q !in w.permits && q !in w.waiters && OrdinaryOn(w, h, c)
    ensures IsRun(w, SecondCall(id, d, q))
    ensures var w' := Run(w, SecondCall(id, d, q)); OrdinaryOn(w', h, c) && OrdinaryOn(w', q, d) && h != q && c != d
  {
    var a, b := Guarding(id, [], d), Locking(d, Resolve({}), q, 0);
    SecondCaller(w, id, d, q, h, c);
    assert IsRun(w, []) && Run(w, []) == w && [] + [a] == [a] && [a] + [b] == SecondCall(id, d, q);
    RunSnoc(w, [], a);
    RunSnoc(w, [a], b);
  }

  /** Every call that does not meet the condition can be followed, after at most one lock, by a second
      caller for the same identity so that two ordinary permits are current at once: unless the view that
      the call returned is being closed and nobody holds it. */
  lemma UnnamedRequestsSplit(w: World, id: NodeId, addrs: seq<Addr>, c: Ref, p: Id, q: Id)
    returns (mid: seq<Op>, h: Id)
    requires Reachable(w) && c !in w.reg.cells && !Named(w.reg, id, addrs)
    requires p != q && p !in w.permits && p !in w.waiters && q !in w.permits && q !in w.waiters
    requires Guard(w.reg, id, addrs, c).1.cell in w.reg.cells && Holdable(w, Guard(w.reg, id, addrs, c).1.cell)
    ensures mid == [] || mid == [Locking(Guard(w.reg, id, addrs, c).1.cell, Resolve({}), p, 0)]
    ensures var w1 := Step(w, Guarding(id, addrs, c));
            && IsRun(w1, mid + SecondCall(id, c, q))
            && var w' := Run(w1, mid + SecondCall(id, c, q));
               OrdinaryOn(w', h, Guard(w.reg, id, addrs, c).1.cell) && OrdinaryOn(w', q, c) && h != q
  {
    var v := Guard(w.reg, id, addrs, c).1;
    UnnamedCallFinds(w.reg, id, addrs, c);
    ReachableInv(w);
    assert Step(w, Guarding(id, addrs, c)) == w;
    mid, h := FirstCaller(w, v.cell, p);
    SecondCallRuns(Run(w, mid), id, c, q, h, v.cell);
    RunAppend(w, mid, SecondCall(id, c, q));
  }

  /** In that case nobody ever holds it again, so that the second caller meets nobody. */
  lemma UnholdableForever(w: World, c: Ref, ops: seq<Op>, q: Id)
    requires Reachable(w) && Live(w.reg, c) && !Holdable(w, c) && IsRun(w, ops)
    ensures !OrdinaryOn(Run(w, ops), q, c)
  {
    ReachableInv(w);
    var w' := Run(w, ops);
    var gen := w.reg.cells[c].epoch;
    DoomedForever(w, ops, c, gen);
    PermitOriginRun(w, ops, q);
    assert CellOk(w.reg, c);
    if q in w.permits && w.permits[q].snap.cell == c {
      assert PermitOk(w.reg, w.permits, w.holder, q);
      assert !OrdinaryOn(w, q, c);
    }
  }

  // The first caller asks for peer 2 at the address of peer 1, the second asks for peer 2 alone.

  const KnowAddress := Guarding(1, [10], 0)
  const AskThere := Guarding(2, [10], 1)
  const LockThere := Locking(0, Resolve({}), 7, 0)
  const AskAlone := Guarding(2, [], 1)
  const LockAlone := Locking(1, Resolve({}), 8, 0)

  predicate AddressKnown(w: World) {
    && w.reg.cells == map[0 := NewCell(1, 1, NodeInfo([], [10], 0))] && w.reg.byAddr == map[10 := View(0, None)]
    && 2 !in w.reg.byId && w.permits == map[] && w.waiters == map[]
  }

  lemma FirstPeer()
    ensures Enabled(Init, KnowAddress) && AddressKnown(Step(Init, KnowAddress))
  {
    var w := Step(Init, KnowAddress);
    assert w.reg.cells == map[0 := NewCell(1, 1, NodeInfo([], [10], 0))];
    assert w.reg.byAddr == map[10 := View(0, None)];
  }

  lemma FoundByAddress(w: World)
    requires AddressKnown(w)
    ensures Enabled(w, AskThere) && Step(w, AskThere) == w && Guard(w.reg, 2, [10], 1).1 == View(0, None)
  {
    assert 1 !in w.reg.cells.Keys && 10 in [10] && 10 in w.reg.byAddr;
    UnnamedCallFinds(w.reg, 2, [10], 1);
  }

  lemma HeldByFirst(w: World)
    requires AddressKnown(w)
    ensures Enabled(w, LockThere)
    ensures var w' := Step(w, LockThere);
            && OrdinaryOn(w', 7, 0) && 2 !in w'.reg.byId && 1 !in w'.reg.cells && 8 !in w'.permits && 8 !in w'.waiters
  {
    FreeViewIsGranted(w, 0, 7);
    assert 1 !in w.reg.cells.Keys;
  }

  /** For instance: the first caller is given the view of peer 1, and both hold permits. */
  lemma AddressesCanSplitPermits()
    ensures IsRun(Init, [KnowAddress]) && Guard(Run(Init, [KnowAddress]).reg, 2, [10], 1).1 == View(0, None)
    ensures IsRun(Init, [KnowAddress, AskThere, LockThere, AskAlone, LockAlone])
    ensures var w := Run(Init, [KnowAddress, AskThere, LockThere, AskAlone, LockAlone]);
            OrdinaryOn(w, 7, 0) && OrdinaryOn(w, 8, 1)
  {
    FirstPeer();
    var w := Step(Init, KnowAddress);
    FoundByAddress(w);
    HeldByFirst(w);
    SecondCaller(Step(w, LockThere), 2, 1, 8, 7, 0);
    ThreeSteps(Init, KnowAddress, AskThere, LockThere);
    FiveSteps(Init, KnowAddress, AskThere, LockThere, AskAlone, LockAlone);
  }

  // ---------------------------------------------------------------- at most one refresh of a routing object

  /** A refresh, through whichever identity, that captured the routing object `ref`. */
  predicate Recaptures(second: Op, ref: Ref) {
    second.Refresh? && second.original.ref == ref
  }

  /** No refresh of the captured routing object changes anything, now or later. */
  ghost predicate NoneCommitsAfter(w: World, ref: Ref) {
    forall ops, second ::
      IsRun(w, ops) && Enabled(Run(w, ops), second) && Recaptures(second, ref) ==>
        Step(Run(w, ops), second) == Run(w, ops)
  }

  /** The description lists every identity that leads to the routing object. */
  predicate ListsAll(t: Tables, ref: Ref, identities: seq<NodeId>) {
    forall k :: k in t.nodes && t.nodes[k].ref == ref ==> k in identities
  }

  predicate Commits(w: World, op: Op) {
    Enabled(w, op) && op.Refresh? && RefreshCommits(w, op.snap, op.id, op.original, op.info)
  }

  lemma DisplacedEverywhere(w: World, first: Op, id: NodeId)
    requires Commits(w, first)
    requires id in w.tab.nodes && w.tab.nodes[id].ref == first.original.ref ==> id in first.info.identities
    ensures Displaced(Step(w, first), id, first.original.ref)
  {
    var w' := Step(w, first);
    assert w'.tab.nodes == PutAll(w.tab.nodes, first.info.identities, first.refreshed);
    assert w'.published == w.published + {first.refreshed.ref};
  }

  /** Of the refreshes that captured the same routing object, through the same or different identities, at
      most one commits if its description lists every identity that leads to the object: after it no later
      one can, whatever happens in between. */
  lemma RefreshAtMostOnce(w: World, first: Op, ops: seq<Op>, second: Op)
    requires Commits(w, first) && ListsAll(w.tab, first.original.ref, first.info.identities)
    requires IsRun(Step(w, first), ops) && Enabled(Run(Step(w, first), ops), second)
    requires Recaptures(second, first.original.ref)
    ensures var w' := Run(Step(w, first), ops); Step(w', second) == w'
  {
    OneIdentityAtMostOnce(w, first, ops, second);
  }

  /** For one identity it is enough that it does not lead to the object or that the description lists it. */
  lemma OneIdentityAtMostOnce(w: World, first: Op, ops: seq<Op>, second: Op)
    requires Commits(w, first)
    requires IsRun(Step(w, first), ops) && Enabled(Run(Step(w, first), ops), second)
    requires Recaptures(second, first.original.ref)
    requires var id := second.id;
             id in w.tab.nodes && w.tab.nodes[id].ref == first.original.ref ==> id in first.info.identities
    ensures var w' := Run(Step(w, first), ops); Step(w', second) == w'
  {
    DisplacedEverywhere(w, first, second.id);
    DisplacedForever(Step(w, first), ops, second.id, first.original.ref);
  }

  /** The same refresh commits again right away exactly when the description does not list the identity. */
  lemma RefreshesAgainIffUnlisted(w: World, op: Op)
    requires Enabled(w, op) && op.Refresh? && RefreshCommits(w, op.snap, op.id, op.original, op.info)
    ensures RefreshCommits(Step(w, op), op.snap, op.id, op.original, op.info) <==> op.id !in op.info.identities
  {
    var w' := Step(w, op);
    assert w'.tab.nodes == PutAll(w.tab.nodes, op.refreshed.identities, op.refreshed);
    CommitStaysAllowed(w.reg, op.snap, op.info);
    assert w'.reg == Commit(w.reg, op.snap, op.info);
  }

  lemma CommitStaysAllowed(r: Registry, s: Snap, info: NodeInfo)
    requires CommitAllowed(r, s, info)
    ensures CommitAllowed(Commit(r, s, info), s, info)
  {
    var r' := Commit(r, s, info);
    assert r'.cells[s.cell] == r.cells[s.cell].(info := info);
    assert r'.byId == InsertAll(r.byId, info.identities, View(s.cell, None));
    assert r'.byAddr == InsertAll(r.byAddr, info.endpoints, View(s.cell, None));
  }

  /** An object that has not been created yet. */
  lemma {:induction false} UnusedRef(used: set<Ref>) returns (ref: Ref)
    ensures ref !in used && forall x :: x in used ==> x < ref
  {
    if used == {} {
      ref := 0;
    } else {
      var x :| x in used;
      var rest := used - {x};
      var y := UnusedRef(rest);
      ref := if x < y then y else x + 1;
      assert forall z :: z in used ==> z == x || z in rest;
    }
  }

  /** A committed refresh is the last of its routing object exactly when its description lists every identity
      that leads to the object. */
  lemma LastRefreshIffAllListed(w: World, first: Op)
    requires Commits(w, first)
    ensures NoneCommitsAfter(Step(w, first), first.original.ref)
            <==> ListsAll(w.tab, first.original.ref, first.info.identities)
  {
    var w' := Step(w, first);
    if ListsAll(w.tab, first.original.ref, first.info.identities) {
      forall ops, second | IsRun(w', ops) && Enabled(Run(w', ops), second) && Recaptures(second, first.original.ref)
        ensures Step(Run(w', ops), second) == Run(w', ops)
      {
        RefreshAtMostOnce(w, first, ops, second);
      }
    } else {
      var id :| id in w.tab.nodes && w.tab.nodes[id].ref == first.original.ref && id !in first.info.identities;
      var second := SecondRefresh(w, first, id);
      assert IsRun(w', []) && Run(w', []) == w';
    }
  }

  /** No refresh of the captured object through `id` changes anything, now or later. */
  ghost predicate NoneCommitsThrough(w: World, id: NodeId, ref: Ref) {
    forall ops, second ::
      IsRun(w, ops) && Enabled(Run(w, ops), second) && Recaptures(second, ref) && second.id == id ==>
        Step(Run(w, ops), second) == Run(w, ops)
  }

  /** Among the refreshes through its own identity, it is the last exactly when that identity is listed. */
  lemma LastThroughSameIdentityIffListed(w: World, first: Op)
    requires Commits(w, first)
    ensures NoneCommitsThrough(Step(w, first), first.id, first.original.ref)
            <==> first.id in first.info.identities
  {
    var w' := Step(w, first);
    if first.id in first.info.identities {
      forall ops, second | IsRun(w', ops) && Enabled(Run(w', ops), second)
                           && Recaptures(second, first.original.ref) && second.id == first.id
        ensures Step(Run(w', ops), second) == Run(w', ops)
      {
        OneIdentityAtMostOnce(w, first, ops, second);
      }
    } else {
      var second := SecondRefresh(w, first, first.id);
      assert IsRun(w', []) && Run(w', []) == w';
    }
  }

  /** Through an identity that still leads to the object, a second refresh commits right away. */
  lemma SecondRefresh(w: World, first: Op, id: NodeId) returns (second: Op)
    requires Commits(w, first)
    requires id in w.tab.nodes && w.tab.nodes[id].ref == first.original.ref && id !in first.info.identities
    ensures Commits(Step(w, first), second) && Recaptures(second, first.original.ref) && second.id == id
    ensures Step(Step(w, first), second) != Step(w, first)
  {
    var w' := Step(w, first);
    var ref := UnusedRef(w'.published);
    second := first.(id := id, refreshed := first.refreshed.(ref := ref));
    assert w'.tab.nodes == PutAll(w.tab.nodes, first.info.identities, first.refreshed);
    assert w'.reg == Commit(w.reg, first.snap, first.info);
    CommitStaysAllowed(w.reg, first.snap, first.info);
    RefreshKeepsCapture(w, first, second);
    CommitPublishes(w', second);
  }

  lemma CommitPublishes(w: World, op: Op)
    requires Enabled(w, op) && op.Refresh? && RefreshCommits(w, op.snap, op.id, op.original, op.info)
    ensures op.refreshed.ref !in w.published && op.refreshed.ref in Step(w, op).published
  {
  }

  lemma RefreshKeepsCapture(w: World, first: Op, second: Op)
    requires Enabled(w, first) && first.Refresh?
    requires RefreshCommits(w, first.snap, first.id, first.original, first.info)
    requires second.Refresh? && second.refreshed.ref !in Step(w, first).published
    requires second == first.(id := second.id, refreshed := first.refreshed.(ref := second.refreshed.ref))
    ensures Enabled(Step(w, first), second)
  {
  }

  // ---------------------------------------------------------------- which identities lead to a routing object

  /** A routing object is found only under identities it lists. */
  ghost predicate EntriesListed(nodes: map<NodeId, Routing>) {
    && (forall k :: k in nodes ==> k in nodes[k].identities)
    && (forall k, l :: k in nodes && l in nodes && nodes[k].ref == nodes[l].ref ==> nodes[k] == nodes[l])
  }

  lemma PublishedListed(nodes: map<NodeId, Routing>, r: Routing)
    requires EntriesListed(nodes) && forall k :: k in nodes ==> nodes[k].ref != r.ref
    ensures EntriesListed(PutAll(nodes, r.identities, r))
  {
  }

  lemma ShrunkListed(t: Tables, t': Tables)
    requires EntriesListed(t.nodes) && Shrinks(t, t')
    ensures EntriesListed(t'.nodes)
  {
  }

  /** The routing that an operation publishes, if it publishes one. */
  function PublishedBy(op: Op): Option<Routing> {
    if op.RegisterSession? then op.routing
    else if op.RegisterRouting? then Some(op.route)
    else if op.Refresh? then Some(op.refreshed)
    else None
  }

  lemma PublishedNodes(w: World, op: Op)
    requires Enabled(w, op) && Publishes(op)
    ensures var nodes := Step(w, op).tab.nodes;
            || nodes == w.tab.nodes
            || (PublishedBy(op).Some? && PublishedBy(op).value.ref !in w.published
                && nodes == PutAll(w.tab.nodes, PublishedBy(op).value.identities, PublishedBy(op).value))
  {
  }

  lemma ListedStep(w: World, op: Op)
    requires TablesOk(w.tab, w.created, w.published) && Enabled(w, op) && EntriesListed(w.tab.nodes)
    ensures EntriesListed(Step(w, op).tab.nodes)
  {
    if !Publishes(op) {
      OthersSweep(w, op);
      ShrunkListed(w.tab, Step(w, op).tab);
    } else {
      PublishedNodes(w, op);
      if Step(w, op).tab.nodes != w.tab.nodes {
        PublishedListed(w.tab.nodes, PublishedBy(op).value);
      }
    }
  }

  lemma {:induction false} ListedRun(w: World, ops: seq<Op>)
    requires Inv(w) && IsRun(w, ops) && EntriesListed(w.tab.nodes)
    ensures EntriesListed(Run(w, ops).tab.nodes)
    decreases |ops|
  {
    if ops != [] {
      ListedStep(w, ops[0]);
      StepKeeps(w, ops[0]);
      ListedRun(Step(w, ops[0]), ops[1..]);
    }
  }

  /** A refresh that drops no identity of the object it replaces is the last refresh of that object. */
  lemma DroppingNobodyIsLast(w: World, first: Op)
    requires Reachable(w) && Commits(w, first)
    requires forall k :: k in w.tab.nodes[first.id].identities ==> k in first.info.identities
    ensures NoneCommitsAfter(Step(w, first), first.original.ref)
  {
    var ops :| IsRun(Init, ops) && Run(Init, ops) == w;
    InitInv();
    ListedRun(Init, ops);
    LastRefreshIffAllListed(w, first);
  }

  // A peer is registered with two identities, its session is published for both, and its routing is
  // refreshed twice by a description that lists only the first identity: through either identity, and
  // then through the second.

  const TwoIds := NodeInfo([1, 2], [], 0)
  const OneId := NodeInfo([1], [], 0)
  const PeerSession := Session(1, 10, 1, [1, 2], 2)
  const PeerRouting := Routing(1, 1, [1, 2], PeerSession, 2)

  function PeerRefresh(id: NodeId, ref: Ref): Op {
    Refresh(Snap(0, 2), id, PeerRouting, OneId, Routing(ref, 1, [1], PeerSession, 2))
  }

  const Register := Updating(TwoIds, 0)
  const Lock := Locking(0, Resolve({}), 7, 0)
  const Publish := RegisterSession(Snap(0, 2), PeerSession, Some(PeerRouting))

  predicate PeerOpen(r: Registry) {
    && r.cells.Keys == {0} && !r.cells[0].retired && r.cells[0].epoch == 2 && r.cells[0].id == 1
    && r.cells[0].state == Outgoing(ConnectIntent)
    && r.byId == map[1 := View(0, None), 2 := View(0, None)] && r.byAddr == map[]
  }

  predicate PeerPublished(t: Tables) {
    && t.nodes == map[1 := PeerRouting, 2 := PeerRouting] && t.sessions == map[10 := PeerSession]
  }

  lemma PeerRegistered()
    ensures Enabled(Init, Register)
    ensures var w := Step(Init, Register);
            && w.reg.cells == map[0 := Cell(1, Closed, 1, false, [], TwoIds, [])] && w.reg.nextGen == 2
            && w.reg.byId == map[1 := View(0, None), 2 := View(0, None)] && w.reg.byAddr == map[]
            && w == Init.(reg := w.reg)
  {
    var w := Step(Init, Register);
    FirstByIdIn(EmptyRegistry.byId, [1, 2]);
    var r := AddCell(EmptyRegistry, 0, 1, NodeInfo([], [], 0));
    assert Update(EmptyRegistry, TwoIds, 0).0 == Enlist(r, View(0, None), TwoIds);
    assert w.reg.byId == map[1 := View(0, None), 2 := View(0, None)];
  }

  lemma PeerLocked(w: World)
    requires w.reg.cells == map[0 := Cell(1, Closed, 1, false, [], TwoIds, [])] && w.reg.nextGen == 2
    requires w.reg.byId == map[1 := View(0, None), 2 := View(0, None)] && w.reg.byAddr == map[]
    requires w == Init.(reg := w.reg)
    ensures Enabled(w, Lock)
    ensures var w' := Step(w, Lock);
            PeerOpen(w'.reg) && w'.tab == EmptyTables && w'.created == map[] && w'.published == {}
  {
    var w' := Step(w, Lock);
    LockVerdict(w.reg, 0, false);
    assert w'.reg == Bump(SetState(w.reg, 0, Outgoing(ConnectIntent)), 0);
  }

  lemma PeerPublishes(w: World)
    requires PeerOpen(w.reg) && w.tab == EmptyTables && w.created == map[] && w.published == {}
    ensures Enabled(w, Publish)
    ensures var w' := Step(w, Publish);
            && w'.reg == w.reg && PeerPublished(w'.tab)
            && w'.created == map[1 := PeerSession] && w'.published == {1}
  {
    assert PublicationOpen(w.reg, Snap(0, 2));
    BothIds();
  }

  lemma BothIds()
    ensures PeerPublished(PublishSession(EmptyTables, PeerSession, Some(PeerRouting)))
  {
    assert PutAll(map[], [1, 2], PeerRouting) == map[1 := PeerRouting, 2 := PeerRouting];
  }

  lemma PeerCommits(w: World, id: NodeId)
    requires PeerOpen(w.reg) && PeerPublished(w.tab) && (id == 1 || id == 2)
    ensures RefreshCommits(w, Snap(0, 2), id, PeerRouting, OneId)
  {
    assert CommitAllowed(w.reg, Snap(0, 2), OneId);
    assert RefreshAllowed(w.tab, id, PeerRouting);
  }

  lemma PeerEnabled(w: World, id: NodeId, ref: Ref)
    requires w.created == map[1 := PeerSession] && 1 in w.published && ref !in w.published
    ensures Enabled(w, PeerRefresh(id, ref))
  {
  }

  lemma PeerRefreshed(w: World, id: NodeId)
    requires Enabled(w, PeerRefresh(id, 2)) && RefreshCommits(w, Snap(0, 2), id, PeerRouting, OneId)
    ensures var w' := Step(w, PeerRefresh(id, 2));
            && w'.published == w.published + {2} && w'.created == w.created
            && w'.tab == PublishRouting(w.tab, Routing(2, 1, [1], PeerSession, 2))
            && w'.reg == Commit(w.reg, Snap(0, 2), OneId)
  {
  }

  /** After the first refresh the second identity still leads to the captured object. */
  lemma SecondStillLeads(w: World, id: NodeId)
    requires PeerPublished(w.tab) && Enabled(w, PeerRefresh(id, 2))
    requires RefreshCommits(w, Snap(0, 2), id, PeerRouting, OneId)
    ensures RefreshCommits(Step(w, PeerRefresh(id, 2)), Snap(0, 2), 2, PeerRouting, OneId)
  {
    PeerRefreshed(w, id);
    CommitStaysAllowed(w.reg, Snap(0, 2), OneId);
    assert RefreshAllowed(Step(w, PeerRefresh(id, 2)).tab, 2, PeerRouting);
  }

  lemma PeerRefreshes(w: World, id: NodeId)
    requires PeerOpen(w.reg) && PeerPublished(w.tab) && w.created == map[1 := PeerSession] && w.published == {1}
    requires id == 1 || id == 2
    ensures Enabled(w, PeerRefresh(id, 2)) && Enabled(Step(w, PeerRefresh(id, 2)), PeerRefresh(2, 3))
    ensures RefreshCommits(Step(w, PeerRefresh(id, 2)), Snap(0, 2), 2, PeerRouting, OneId)
  {
    PeerCommits(w, id);
    PeerEnabled(w, id, 2);
    SecondStillLeads(w, id);
    PeerRefreshed(w, id);
    PeerEnabled(Step(w, PeerRefresh(id, 2)), 2, 3);
  }

  /** Two refreshes that captured the same routing object both commit: the first through either identity, even
      the one its description lists, and the second through the other one. */
  lemma PeerRefreshesTwice(id: NodeId)
    requires id == 1 || id == 2
    ensures IsRun(Init, [Register, Lock, Publish, PeerRefresh(id, 2), PeerRefresh(2, 3)])
    ensures IsRun(Init, [Register, Lock, Publish])
    ensures var w := Run(Init, [Register, Lock, Publish]);
            && Commits(w, PeerRefresh(id, 2)) && Commits(Step(w, PeerRefresh(id, 2)), PeerRefresh(2, 3))
            && PeerRefresh(id, 2).original == PeerRefresh(2, 3).original
  {
    PeerRegistered();
    PeerLocked(Step(Init, Register));
    var w := Step(Step(Init, Register), Lock);
    PeerPublishes(w);
    PeerCommits(Step(w, Publish), id);
    PeerRefreshes(Step(w, Publish), id);
    ThreeSteps(Init, Register, Lock, Publish);
    FiveSteps(Init, Register, Lock, Publish, PeerRefresh(id, 2), PeerRefresh(2, 3));
  }
}
