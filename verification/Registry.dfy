/**
 The registry of peers: which views exist, under which identities and addresses they are found,
 and what each locked region of `NetworkView` and `NodeView` does to them.

 A view is shared by reference. Here a reference is a number and `cells` is the heap, so that two
 handles denote the same view exactly when their numbers are equal.
 */
module Registries {
  import opened Wrappers
  import opened SessionStates

  type NodeId = nat
  type Addr = nat
  type Ref = nat

  datatype NodeInfo = NodeInfo(identities: seq<NodeId>, endpoints: seq<Addr>, details: nat)

  /** The shared part of a view: lifecycle state, generation, retirement flag, the announcements sent
      so far, the cached peer information and the handles that abort a running initialization. */
  datatype Cell = Cell(
    id: NodeId,
    state: SessionState,
    epoch: nat,
    retired: bool,
    log: seq<SessionState>,
    info: NodeInfo,
    handles: seq<nat>)

  /** A handle to a view, either following reconnects or bound to one generation. */
  datatype View = View(cell: Ref, expected: Option<nat>)

  /** A handle bound to one generation. */
  datatype Snap = Snap(cell: Ref, gen: nat)

  datatype Registry = Registry(
    cells: map<Ref, Cell>,
    byId: map<NodeId, View>,
    byAddr: map<Addr, View>,
    nextGen: nat)

  const EmptyRegistry := Registry(map[], map[], map[], 1)

  function NewCell(id: NodeId, epoch: nat, info: NodeInfo): Cell {
    Cell(id, Closed, epoch, false, [], info, [])
  }

  function Generation(r: Registry, v: View): nat
    requires v.cell in r.cells
  {
    if v.expected.Some? then v.expected.value else r.cells[v.cell].epoch
  }

  function Snapshot(r: Registry, v: View): Snap
    requires v.cell in r.cells
  {
    Snap(v.cell, Generation(r, v))
  }

  predicate Current(r: Registry, s: Snap) {
    && s.cell in r.cells
    && !r.cells[s.cell].retired
    && s.gen == r.cells[s.cell].epoch
  }

  predicate Live(r: Registry, c: Ref) {
    c in r.cells && !r.cells[c].retired
  }

  // ---------------------------------------------------------------- lookups

  function FirstByAddr(m: map<Addr, View>, addrs: seq<Addr>): Option<View> {
    if addrs == [] then None
    else if addrs[0] in m then Some(m[addrs[0]])
    else FirstByAddr(m, addrs[1..])
  }

  function Find(r: Registry, id: NodeId, addrs: seq<Addr>): Option<View> {
    if id in r.byId then Some(r.byId[id]) else FirstByAddr(r.byAddr, addrs)
  }

  function InsertAll<K>(m: map<K, View>, keys: seq<K>, v: View): map<K, View> {
    m + map k | k in keys :: v
  }

  /** Make identities and endpoints lead to `v`. */
  function Point(r: Registry, v: View, ids: seq<NodeId>, addrs: seq<Addr>): Registry {
    r.(byId := InsertAll(r.byId, ids, v), byAddr := InsertAll(r.byAddr, addrs, v))
  }

  // ---------------------------------------------------------------- operations

  function AddCell(r: Registry, c: Ref, id: NodeId, info: NodeInfo): Registry {
    r.(cells := r.cells[c := NewCell(id, r.nextGen, info)], nextGen := r.nextGen + 1)
  }

  /** The view for `id`, found by identity, else by address, else created at the fresh `c`. */
  function Guard(r: Registry, id: NodeId, addrs: seq<Addr>, c: Ref): (Registry, View) {
    match Find(r, id, addrs)
    case Some(v) => (r, v)
    case None =>
      var v := View(c, None);
      (Point(AddCell(r, c, id, NodeInfo([], addrs, 0)), v, [id], addrs), v)
  }

  /** The first of `ids` that is registered. */
  function FirstById(m: map<NodeId, View>, ids: seq<NodeId>): Option<View> {
    if ids == [] then None
    else if ids[0] in m then Some(m[ids[0]])
    else FirstById(m, ids[1..])
  }

  predicate SameGroup(m: map<NodeId, View>, ids: seq<NodeId>, v: View) {
    forall i :: i in ids && i in m ==> m[i].cell == v.cell
  }

  function ApplyInfo(r: Registry, c: Ref, info: NodeInfo): Registry
    requires c in r.cells
  {
    r.(cells := r.cells[c := r.cells[c].(info := info)])
  }

  /** Alias and endpoint registration; a group that is split over two views is refused. */
  function Update(r: Registry, info: NodeInfo, c: Ref): (Registry, bool) {
    if info.identities == [] then (r, false)
    else
      match FirstById(r.byId, info.identities)
      case Some(v) =>
        if !SameGroup(r.byId, info.identities, v) then (r, false)
        else (Enlist(r, v, info), true)
      case None =>
        (Enlist(AddCell(r, c, info.identities[0], NodeInfo([], info.endpoints, info.details)),
                View(c, None), info), true)
  }

  /** Point every identity and endpoint of `info` at `v`. The cached information is replaced only
      when the default identity is the view's own. */
  function Enlist(r: Registry, v: View, info: NodeInfo): Registry {
    var r' := Point(r, v, info.identities, info.endpoints);
    if v.cell in r.cells && info.identities != [] && info.identities[0] == r.cells[v.cell].id
    then ApplyInfo(r', v.cell, info)
    else r'
  }

  /** Everything a state change does to the shared cell: new state, one announcement. */
  function SetState(r: Registry, c: Ref, s: SessionState): Registry
    requires c in r.cells
  {
    r.(cells := r.cells[c := r.cells[c].(state := s, log := r.cells[c].log + [s])])
  }

  /** A table transition through a snapshot, and whether it was accepted. */
  function Try(r: Registry, s: Snap, req: Request): (Registry, bool) {
    if !Current(r, s) then (r, false)
    else
      match Transition(r.cells[s.cell].state, req)
      case None => (r, false)
      case Some(t) => (SetState(r, s.cell, t), true)
  }

  function BeginClosing(r: Registry, s: Snap): Registry {
    if Current(r, s) then SetState(r, s.cell, Closing) else r
  }

  function Without<K>(m: map<K, View>, c: Ref): map<K, View> {
    map k | k in m && m[k].cell != c :: m[k]
  }

  /** Retire an identity group: mark it, close it, and remove every alias and endpoint. */
  function Retire(r: Registry, s: Snap): Registry {
    if !Current(r, s) then r
    else
      var cell := r.cells[s.cell];
      r.(cells := r.cells[s.cell :=
             cell.(retired := true, state := Closed, log := cell.log + [Closed], handles := [])],
         byId := Without(r.byId, s.cell),
         byAddr := Without(r.byAddr, s.cell))
  }

  /** Start a new generation of a view. */
  function Bump(r: Registry, c: Ref): Registry
    requires c in r.cells
  {
    r.(cells := r.cells[c := r.cells[c].(epoch := r.nextGen)], nextGen := r.nextGen + 1)
  }

  /** The outcome of asking for the exclusive right to initialize. */
  datatype Lock = Granted(snap: Snap, reverse: bool) | MustWait(snap: Snap)

  function LockSession(r: Registry, v: View, incoming: bool): (Registry, Lock)
    requires v.cell in r.cells
  {
    var s := Snapshot(r, v);
    var req := if incoming then ToIncoming(ConnectIntent) else ToOutgoing(ConnectIntent);
    var (r1, granted) := Try(r, s, req);
    if !granted then (r, MustWait(s))
    else if r1.cells[v.cell].state.ReverseConnection? then (r1, Granted(s, true))
    else
      var r2 := Bump(r1, v.cell);
      (r2, Granted(Snapshot(r2, v), false))
  }

  predicate Conflicts<K>(m: map<K, View>, keys: seq<K>, c: Ref) {
    exists k :: k in keys && k in m && m[k].cell != c
  }

  /** May a refreshed description be committed for this generation? */
  predicate CommitAllowed(r: Registry, s: Snap, info: NodeInfo) {
    && Current(r, s)
    && var cell := r.cells[s.cell];
    && !(cell.state.Closed? || cell.state.Closing? || cell.state.FailedEstablish?)
    && cell.id in info.identities
    && !Conflicts(r.byId, info.identities, s.cell)
    && !Conflicts(r.byAddr, info.endpoints, s.cell)
  }

  function Commit(r: Registry, s: Snap, info: NodeInfo): Registry
    requires CommitAllowed(r, s, info)
  {
    ApplyInfo(Point(r, View(s.cell, None), info.identities, info.endpoints), s.cell, info)
  }

  /** Publication is open to a current generation that is not closing, closed or failed. */
  predicate PublicationOpen(r: Registry, s: Snap) {
    && Current(r, s)
    && var st := r.cells[s.cell].state;
    && !(st.Closed? || st.Closing? || st.FailedEstablish?)
  }

  // The three abort-handle operations return the handles that must be aborted.

  function RegisterHandle(r: Registry, s: Snap, h: nat): (Registry, seq<nat>)
    requires s.cell in r.cells
  {
    var cell := r.cells[s.cell];
    if Current(r, s) && !cell.state.Closing? && !cell.state.Closed?
    then (r.(cells := r.cells[s.cell := cell.(handles := cell.handles + [h])]), [])
    else (r, [h])
  }

  function ForgetHandles(r: Registry, s: Snap): Registry {
    if Current(r, s) then r.(cells := r.cells[s.cell := r.cells[s.cell].(handles := [])]) else r
  }

  function AbortHandles(r: Registry, s: Snap): (Registry, seq<nat>) {
    if Current(r, s) then (ForgetHandles(r, s), r.cells[s.cell].handles) else (r, [])
  }

  // ---------------------------------------------------------------- invariant

  predicate CellOk(r: Registry, c: Ref)
    requires c in r.cells
  {
    var cell := r.cells[c];
    && cell.epoch < r.nextGen
    && IsHistory(cell.log)
    && cell.state == Before(cell.log, |cell.log|)
    && (cell.retired ==> cell.state.Closed? && cell.handles == [])
    && (!cell.retired ==> cell.id in r.byId && r.byId[cell.id].cell == c)
  }

  predicate ReachableOk<K>(r: Registry, m: map<K, View>) {
    forall k :: k in m ==> m[k].expected.None? && Live(r, m[k].cell)
  }

  /** Nothing retired can be found, every live view is found under its own identity, stored handles
      follow reconnects, and no two views share a generation. */
  ghost predicate RegistryOk(r: Registry) {
    && (forall c :: c in r.cells ==> CellOk(r, c))
    && ReachableOk(r, r.byId)
    && ReachableOk(r, r.byAddr)
    && DistinctEpochs(r)
  }

  predicate DistinctEpochs(r: Registry) {
    forall c, d :: c in r.cells && d in r.cells && c != d ==> r.cells[c].epoch != r.cells[d].epoch
  }

  lemma FirstByAddrIn(m: map<Addr, View>, addrs: seq<Addr>)
    ensures match FirstByAddr(m, addrs)
            case Some(v) => exists a :: a in addrs && a in m && m[a] == v
            case None => forall a :: a in addrs ==> a !in m
  {
    if addrs != [] && addrs[0] !in m {
      FirstByAddrIn(m, addrs[1..]);
      if FirstByAddr(m, addrs[1..]).Some? {
        var a :| a in addrs[1..] && a in m && m[a] == FirstByAddr(m, addrs[1..]).value;
        assert a in addrs;
      }
    } else if addrs != [] {
      assert addrs[0] in addrs;
    }
  }

  lemma FirstByIdIn(m: map<NodeId, View>, ids: seq<NodeId>)
    ensures match FirstById(m, ids)
            case Some(v) => exists a :: a in ids && a in m && m[a] == v
            case None => forall a :: a in ids ==> a !in m
  {
    if ids != [] && ids[0] !in m {
      FirstByIdIn(m, ids[1..]);
      if FirstById(m, ids[1..]).Some? {
        var a :| a in ids[1..] && a in m && m[a] == FirstById(m, ids[1..]).value;
        assert a in ids;
      }
    } else if ids != [] {
      assert ids[0] in ids;
    }
  }

  // A state change and an information change touch one cell and keep everything else.

  lemma SetStateOk(r: Registry, c: Ref, s: SessionState)
    requires RegistryOk(r) && Live(r, c)
    requires Follows(r.cells[c].state, s)
    ensures RegistryOk(SetState(r, c, s))
  {
    assert CellOk(r, c);
    HistoryExtends(r.cells[c].log, s);
    var r' := SetState(r, c, s);
    assert forall d :: d in r.cells && d != c ==> CellOk(r, d) && r'.cells[d] == r.cells[d];
  }

  lemma BeginClosingOk(r: Registry, s: Snap)
    requires RegistryOk(r)
    ensures RegistryOk(BeginClosing(r, s))
  {
    if Current(r, s) {
      SetStateOk(r, s.cell, Closing);
    }
  }

  lemma BumpOk(r: Registry, c: Ref)
    requires RegistryOk(r) && c in r.cells
    ensures RegistryOk(Bump(r, c))
  {
    var r' := Bump(r, c);
    forall d | d in r'.cells ensures CellOk(r', d) {
      assert CellOk(r, d);
    }
    assert DistinctEpochs(r') by {
      forall a, b | a in r'.cells && b in r'.cells && a != b ensures r'.cells[a].epoch != r'.cells[b].epoch {
        assert CellOk(r, a) && CellOk(r, b);
      }
    }
  }

  lemma RetireOk(r: Registry, s: Snap)
    requires RegistryOk(r)
    ensures RegistryOk(Retire(r, s))
    ensures Current(r, s) ==> !Live(Retire(r, s), s.cell)
    ensures Current(r, s) ==> forall k :: k in Retire(r, s).byId ==> Retire(r, s).byId[k].cell != s.cell
    ensures Current(r, s) ==> forall k :: k in Retire(r, s).byAddr ==> Retire(r, s).byAddr[k].cell != s.cell
  {
    if Current(r, s) {
      var r' := Retire(r, s);
      assert CellOk(r, s.cell);
      HistoryExtends(r.cells[s.cell].log, Closed);
      forall d | d in r'.cells ensures CellOk(r', d) {
        assert CellOk(r, d);
      }
    }
  }

  lemma NewEpochDistinct(r: Registry, c: Ref, id: NodeId, info: NodeInfo)
    requires RegistryOk(r) && c !in r.cells
    ensures DistinctEpochs(AddCell(r, c, id, info))
  {
    var r' := AddCell(r, c, id, info);
    forall a, b | a in r'.cells && b in r'.cells && a != b ensures r'.cells[a].epoch != r'.cells[b].epoch {
      assert a != c ==> CellOk(r, a);
      assert b != c ==> CellOk(r, b);
    }
  }

  /** Old views keep their place and the new one is found under `id`. */
  lemma AddCellCells(r: Registry, c: Ref, id: NodeId, info: NodeInfo, ids: seq<NodeId>, addrs: seq<Addr>, d: Ref)
    requires RegistryOk(r) && c !in r.cells && id in ids
    requires forall i :: i in ids ==> i !in r.byId
    requires d == c || d in r.cells
    ensures CellOk(Point(AddCell(r, c, id, info), View(c, None), ids, addrs), d)
  {
    if d != c {
      assert CellOk(r, d);
    }
  }

  lemma PointReachable<K>(r: Registry, r': Registry, m: map<K, View>, keys: seq<K>, c: Ref)
    requires ReachableOk(r, m) && Live(r', c)
    requires forall d :: Live(r, d) ==> Live(r', d)
    ensures ReachableOk(r', InsertAll(m, keys, View(c, None)))
  {
  }

  lemma AddCellOk(r: Registry, c: Ref, id: NodeId, info: NodeInfo, ids: seq<NodeId>, addrs: seq<Addr>)
    requires RegistryOk(r) && c !in r.cells && id in ids
    requires forall i :: i in ids ==> i !in r.byId
    ensures RegistryOk(Point(AddCell(r, c, id, info), View(c, None), ids, addrs))
  {
    var r' := Point(AddCell(r, c, id, info), View(c, None), ids, addrs);
    forall d | d in r'.cells ensures CellOk(r', d) {
      AddCellCells(r, c, id, info, ids, addrs, d);
    }
    PointReachable(r, r', r.byId, ids, c);
    PointReachable(r, r', r.byAddr, addrs, c);
    NewEpochDistinct(r, c, id, info);
  }

  lemma GuardOk(r: Registry, id: NodeId, addrs: seq<Addr>, c: Ref)
    requires RegistryOk(r) && c !in r.cells
    ensures RegistryOk(Guard(r, id, addrs, c).0)
    ensures Guard(r, id, addrs, c).1.expected.None?
    ensures Live(Guard(r, id, addrs, c).0, Guard(r, id, addrs, c).1.cell)
  {
    FirstByAddrIn(r.byAddr, addrs);
    if Find(r, id, addrs).None? {
      AddCellOk(r, c, id, NodeInfo([], addrs, 0), [id], addrs);
    }
  }

  /** Equal in everything but the cached information and the abort handles. */
  predicate SameLife(a: Cell, b: Cell) {
    a.id == b.id && a.state == b.state && a.epoch == b.epoch && a.retired == b.retired && a.log == b.log
  }

  lemma MetadataOk(r: Registry, c: Ref, cell: Cell)
    requires RegistryOk(r) && c in r.cells && SameLife(r.cells[c], cell) && (cell.retired ==> cell.handles == [])
    ensures RegistryOk(r.(cells := r.cells[c := cell]))
  {
    var r' := r.(cells := r.cells[c := cell]);
    forall d | d in r'.cells ensures CellOk(r', d) {
      assert CellOk(r, d);
    }
    assert ReachableOk(r', r.byId);
    assert ReachableOk(r', r.byAddr);
  }

  lemma ApplyInfoOk(r: Registry, c: Ref, info: NodeInfo)
    requires RegistryOk(r) && c in r.cells
    ensures RegistryOk(ApplyInfo(r, c, info))
  {
    assert CellOk(r, c);
    MetadataOk(r, c, r.cells[c].(info := info));
  }

  lemma AliasCells(r: Registry, c: Ref, ids: seq<NodeId>, addrs: seq<Addr>, d: Ref)
    requires RegistryOk(r) && Live(r, c) && d in r.cells
    requires forall i :: i in ids && i in r.byId ==> r.byId[i].cell == c
    ensures CellOk(Point(r, View(c, None), ids, addrs), d)
  {
    assert CellOk(r, d);
  }

  /** New aliases for a live view, none of which belongs to another view. */
  lemma AliasOk(r: Registry, c: Ref, ids: seq<NodeId>, addrs: seq<Addr>)
    requires RegistryOk(r) && Live(r, c)
    requires forall i :: i in ids && i in r.byId ==> r.byId[i].cell == c
    ensures RegistryOk(Point(r, View(c, None), ids, addrs))
  {
    var r' := Point(r, View(c, None), ids, addrs);
    forall d | d in r'.cells ensures CellOk(r', d) {
      AliasCells(r, c, ids, addrs, d);
    }
    PointReachable(r, r', r.byId, ids, c);
    PointReachable(r, r', r.byAddr, addrs, c);
    assert DistinctEpochs(r');
  }

  lemma UpdateOk(r: Registry, info: NodeInfo, c: Ref)
    requires RegistryOk(r) && c !in r.cells
    ensures RegistryOk(Update(r, info, c).0)
  {
    FirstByIdIn(r.byId, info.identities);
    if Update(r, info, c).1 {
      var ids, ends := info.identities, info.endpoints;
      match FirstById(r.byId, ids) {
        case Some(v) =>
          assert v == View(v.cell, None);
          AliasOk(r, v.cell, ids, ends);
          ApplyInfoOk(Point(r, v, ids, ends), v.cell, info);
        case None =>
          var first := NodeInfo([], ends, info.details);
          AddCellOk(r, c, ids[0], first, ids, ends);
          ApplyInfoOk(Point(AddCell(r, c, ids[0], first), View(c, None), ids, ends), c, info);
      }
    }
  }

  lemma CommitOk(r: Registry, s: Snap, info: NodeInfo)
    requires RegistryOk(r) && CommitAllowed(r, s, info)
    ensures RegistryOk(Commit(r, s, info))
  {
    AliasOk(r, s.cell, info.identities, info.endpoints);
    ApplyInfoOk(Point(r, View(s.cell, None), info.identities, info.endpoints), s.cell, info);
  }

  /** Exactly when a lock is granted, and what the grant does. `Closed` and `FailedEstablish` give the
      exclusive permit of a new generation; an awaited reverse connection gives an incoming handshake
      a second permit of the same generation; anything else must wait. */
  lemma LockVerdict(r: Registry, c: Ref, incoming: bool)
    requires c in r.cells
    ensures var cell := r.cells[c];
            var s := if incoming then Incoming(ConnectIntent) else Outgoing(ConnectIntent);
            LockSession(r, View(c, None), incoming) ==
              if !cell.retired && (cell.state.Closed? || cell.state.FailedEstablish?) then
                (Bump(SetState(r, c, s), c), Granted(Snap(c, r.nextGen), false))
              else if !cell.retired && incoming && cell.state == ReverseConnection(Awaiting) then
                (SetState(r, c, ReverseConnection(InProgress(ConnectIntent))), Granted(Snap(c, cell.epoch), true))
              else
                (r, MustWait(Snap(c, cell.epoch)))
  {
  }

  // ---------------------------------------------------------------- what is found afterwards

  /** Every key of `keys` leads to `c`, every other key leads where it led before. */
  ghost predicate Redirected(m: map<nat, View>, m': map<nat, View>, keys: seq<nat>, c: Ref) {
    && (forall k :: k in keys ==> k in m' && m'[k] == View(c, None))
    && (forall k :: k !in keys ==> (k in m' <==> k in m) && (k in m && k in m' ==> m'[k] == m[k]))
  }

  ghost predicate OthersUntouched(r: Registry, r': Registry, c: Ref) {
    forall d :: d != c ==>
      (d in r'.cells <==> d in r.cells) && (d in r.cells && d in r'.cells ==> r'.cells[d] == r.cells[d])
  }

  lemma {:induction false} FirstByAddrIsFirst(m: map<Addr, View>, addrs: seq<Addr>) returns (i: nat)
    ensures i <= |addrs| && forall j :: 0 <= j < i ==> addrs[j] !in m
    ensures i < |addrs| ==> addrs[i] in m
    ensures FirstByAddr(m, addrs) == if i < |addrs| then Some(m[addrs[i]]) else None
  {
    if addrs == [] || addrs[0] in m {
      i := 0;
    } else {
      var j := FirstByAddrIsFirst(m, addrs[1..]);
      i := j + 1;
    }
  }

  /** A caller is given the view of its identity; else the view of the first address that is known; else a
      new, closed view of a new generation, which its identity and all its addresses lead to from then on. */
  lemma GuardFinds(r: Registry, id: NodeId, addrs: seq<Addr>, c: Ref) returns (i: nat)
    requires RegistryOk(r) && c !in r.cells
    ensures var (r', v) := Guard(r, id, addrs, c);
            && i <= |addrs| && (forall j :: 0 <= j < i ==> addrs[j] !in r.byAddr)
            && if id in r.byId then r' == r && v == r.byId[id]
               else if i < |addrs| then r' == r && addrs[i] in r.byAddr && v == r.byAddr[addrs[i]]
               else
                 && v == View(c, None)
                 && Redirected(r.byId, r'.byId, [id], c) && Redirected(r.byAddr, r'.byAddr, addrs, c)
                 && OthersUntouched(r, r', c) && c in r'.cells
                 && var cell := r'.cells[c];
                 && cell.id == id && cell.state.Closed? && !cell.retired && cell.log == [] && cell.handles == []
                 && cell.info.endpoints == addrs
                 && forall d :: d in r.cells ==> r.cells[d].epoch < cell.epoch
  {
    i := FirstByAddrIsFirst(r.byAddr, addrs);
    assert forall d :: d in r.cells ==> CellOk(r, d);
  }

  /** A description is taken over exactly if it names an identity and all identities known so far belong to one
      view. Then all its identities and endpoints lead to that view, or to a new one if none was known, nothing
      else is redirected, and the view's information becomes the description if its own identity comes first.
      Otherwise nothing changes. */
  lemma UpdateRegisters(r: Registry, info: NodeInfo, c: Ref) returns (d: Ref)
    requires RegistryOk(r) && c !in r.cells
    ensures Update(r, info, c).1 <==>
            && info.identities != []
            && forall i, j :: i in info.identities && j in info.identities && i in r.byId && j in r.byId
                              ==> r.byId[i].cell == r.byId[j].cell
    ensures !Update(r, info, c).1 ==> Update(r, info, c).0 == r
    ensures Update(r, info, c).1 ==>
            var r' := Update(r, info, c).0;
            && Redirected(r.byId, r'.byId, info.identities, d) && Redirected(r.byAddr, r'.byAddr, info.endpoints, d)
            && OthersUntouched(r, r', d) && d in r'.cells
            && (forall i :: i in info.identities && i in r.byId ==> r.byId[i].cell == d)
            && (d in r.cells ==>
                  && SameLife(r.cells[d], r'.cells[d]) && r'.cells[d].handles == r.cells[d].handles
                  && exists i :: i in info.identities && i in r.byId)
            && (d !in r.cells ==>
                  && d == c && r'.cells[d].id == info.identities[0] && r'.cells[d].state.Closed?
                  && !r'.cells[d].retired && r'.cells[d].epoch == r.nextGen)
            && r'.cells[d].info == if info.identities[0] == r'.cells[d].id then info else r.cells[d].info
  {
    FirstByIdIn(r.byId, info.identities);
    match FirstById(r.byId, info.identities) {
      case Some(v) =>
        d := v.cell;
        assert v == View(d, None);
        Enlisted(r, d, info);
      case None =>
        d := c;
        if info.identities != [] {
          Enlisted(AddCell(r, c, info.identities[0], NodeInfo([], info.endpoints, info.details)), c, info);
        }
    }
  }

  lemma Enlisted(r: Registry, d: Ref, info: NodeInfo)
    requires d in r.cells && info.identities != []
    ensures var r' := Enlist(r, View(d, None), info);
            && Redirected(r.byId, r'.byId, info.identities, d) && Redirected(r.byAddr, r'.byAddr, info.endpoints, d)
            && OthersUntouched(r, r', d) && d in r'.cells
            && r'.cells[d] == r.cells[d].(info := if info.identities[0] == r.cells[d].id then info else r.cells[d].info)
  {
  }

  /** Retiring a current generation removes exactly the keys that lead to its view. */
  lemma RetireRemovesExactly(r: Registry, s: Snap)
    ensures var r' := Retire(r, s);
            if !Current(r, s) then r' == r
            else
              && OthersUntouched(r, r', s.cell) && s.cell in r'.cells && r'.cells[s.cell].retired
              && (forall k :: k in r'.byId <==> k in r.byId && r.byId[k].cell != s.cell)
              && (forall k :: k in r'.byId ==> r'.byId[k] == r.byId[k])
              && (forall a :: a in r'.byAddr <==> a in r.byAddr && r.byAddr[a].cell != s.cell)
              && (forall a :: a in r'.byAddr ==> r'.byAddr[a] == r.byAddr[a])
  {
  }

  /** Committing a refresh redirects exactly the listed keys, and touches nothing else but the information. */
  lemma CommitRegisters(r: Registry, s: Snap, info: NodeInfo)
    requires CommitAllowed(r, s, info)
    ensures var r' := Commit(r, s, info);
            && Redirected(r.byId, r'.byId, info.identities, s.cell)
            && Redirected(r.byAddr, r'.byAddr, info.endpoints, s.cell)
            && OthersUntouched(r, r', s.cell) && r'.cells[s.cell] == r.cells[s.cell].(info := info)
  {
  }

  /** Publication is open exactly while the generation is current and being initialized or established; a
      refresh needs moreover that the view's own identity is listed and that no key belongs to another view. */
  lemma OpenWhileInUse(r: Registry, s: Snap, info: NodeInfo)
    ensures PublicationOpen(r, s) <==>
            Current(r, s) && (r.cells[s.cell].state.Busy() || r.cells[s.cell].state.Established?)
    ensures CommitAllowed(r, s, info) <==>
            && PublicationOpen(r, s) && r.cells[s.cell].id in info.identities
            && (forall i :: i in info.identities ==> i !in r.byId || r.byId[i].cell == s.cell)
            && (forall a :: a in info.endpoints ==> a !in r.byAddr || r.byAddr[a].cell == s.cell)
  {
  }

  function HandlesOf(r: Registry, c: Ref): seq<nat> {
    if c in r.cells then r.cells[c].handles else []
  }

  /** No abort handle gets lost: registering keeps it exactly if the generation is current and its view neither
      closing nor closed, and otherwise returns it to be aborted; aborting returns exactly the handles kept, once;
      and through a stale snapshot nothing is taken from the view. */
  lemma HandlesAccountedFor(r: Registry, s: Snap, h: nat)
    requires s.cell in r.cells
    ensures var (r', aborted) := RegisterHandle(r, s, h);
            && HandlesOf(r', s.cell) + aborted == HandlesOf(r, s.cell) + [h]
            && OthersUntouched(r, r', s.cell) && SameLife(r.cells[s.cell], r'.cells[s.cell])
            && (aborted == [] <==>
                  Current(r, s) && !r.cells[s.cell].state.Closing? && !r.cells[s.cell].state.Closed?)
    ensures var (r', aborted) := AbortHandles(r, s);
            && aborted + HandlesOf(r', s.cell) == HandlesOf(r, s.cell)
            && OthersUntouched(r, r', s.cell) && SameLife(r.cells[s.cell], r'.cells[s.cell])
            && (if Current(r, s) then HandlesOf(r', s.cell) == [] else aborted == [])
    ensures HandlesOf(ForgetHandles(r, s), s.cell) == if Current(r, s) then [] else HandlesOf(r, s.cell)
  {
  }
}
