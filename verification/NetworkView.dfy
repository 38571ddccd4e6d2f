/**
 The registry of peers as it is kept in memory: views shared by reference, two indexes that are
 updated in place, and a generation counter. Each method is one locked region, and its
 postcondition equates the new contents with the corresponding function of the registry model.
 */
module NetworkViews {
  import opened Wrappers
  import opened SessionStates
  import R = Registries

  type NodeId = R.NodeId
  type Addr = R.Addr

  /** The part of a view that all its handles share. */
  class SharedNode {
    ghost const ref: R.Ref
    const id: NodeId
    var state: SessionState
    var epoch: nat
    var retired: bool
    var announced: seq<SessionState>
    var info: R.NodeInfo
    var handles: seq<nat>

    constructor (ghost ref: R.Ref, id: NodeId, epoch: nat, info: R.NodeInfo)
      ensures this.ref == ref
      ensures Contents() == R.NewCell(id, epoch, info)
    {
      this.ref := ref;
      this.id := id;
      this.state := Closed;
      this.epoch := epoch;
      this.retired := false;
      this.announced := [];
      this.info := info;
      this.handles := [];
    }

    ghost function Contents(): R.Cell
      reads this
    {
      R.Cell(id, state, epoch, retired, announced, info, handles)
    }

    /** Store a state and announce it. */
    method Enter(s: SessionState)
      modifies this`state, this`announced
      ensures Contents() == old(Contents()).(state := s, log := old(Contents()).log + [s])
    {
      state := s;
      announced := announced + [s];
    }
  }

  /** A handle to a view; one with an expected generation never follows a reconnect. */
  datatype NodeView = NodeView(node: SharedNode, expected: Option<nat>)
  {
    ghost function AsView(): R.View {
      R.View(node.ref, expected)
    }

    function Generation(): nat
      reads node
    {
      if expected.Some? then expected.value else node.epoch
    }

    function Snapshot(): NodeView
      reads node
    {
      NodeView(node, Some(Generation()))
    }

    predicate IsCurrent()
      reads node
    {
      !node.retired && Generation() == node.epoch
    }
  }

  datatype SessionLock = Permit(view: NodeView, reverse: bool) | Wait(view: NodeView)

  ghost function Views<K>(m: map<K, NodeView>): map<K, R.View> {
    map k | k in m :: m[k].AsView()
  }

  lemma OneMore<K>(m: map<K, NodeView>, m': map<K, NodeView>, keys: seq<K>, i: nat, v: NodeView)
    requires i < |keys| && Views(m') == R.InsertAll(Views(m), keys[..i], v.AsView())
    ensures Views(m'[keys[i] := v]) == R.InsertAll(Views(m), keys[..i + 1], v.AsView())
  {
    assert keys[..i + 1] == keys[..i] + [keys[i]];
    assert Views(m'[keys[i] := v]) == Views(m')[keys[i] := v.AsView()];
  }

  class NetworkView {
    var byNodeId: map<NodeId, NodeView>
    var byAddr: map<Addr, NodeView>
    var nextGeneration: nat
    ghost var nodes: map<R.Ref, SharedNode>
    ghost var nextRef: nat

    constructor ()
      ensures Valid() && Model() == R.EmptyRegistry && nodes == map[]
    {
      byNodeId := map[];
      byAddr := map[];
      nextGeneration := 1;
      nodes := map[];
      nextRef := 0;
    }

    ghost predicate Owns(v: NodeView)
      reads this
    {
      v.node.ref in nodes && nodes[v.node.ref] == v.node
    }

    /** The indexes lead to nodes of this registry, and a node is known by its own reference. */
    ghost predicate Valid()
      reads this
    {
      && (forall c :: c in nodes ==> c < nextRef && nodes[c].ref == c)
      && (forall k :: k in byNodeId ==> Owns(byNodeId[k]))
      && (forall a :: a in byAddr ==> Owns(byAddr[a]))
    }

    ghost function Cells(): map<R.Ref, R.Cell>
      reads this, nodes.Values
    {
      map c | c in nodes :: nodes[c].Contents()
    }

    ghost function Model(): R.Registry
      reads this, nodes.Values
    {
      R.Registry(Cells(), Views(byNodeId), Views(byAddr), nextGeneration)
    }

    ghost function SnapOf(v: NodeView): R.Snap
      reads v.node
    {
      R.Snap(v.node.ref, v.Generation())
    }

    // -------------------------------------------------------------- lookups

    method FindByAddr(addrs: seq<Addr>) returns (found: Option<NodeView>)
      requires Valid()
      ensures found.Some? ==> Owns(found.value)
      ensures (if found.Some? then Some(found.value.AsView()) else None) == R.FirstByAddr(Views(byAddr), addrs)
    {
      var i := 0;
      while i < |addrs|
        invariant 0 <= i <= |addrs|
        invariant R.FirstByAddr(Views(byAddr), addrs) == R.FirstByAddr(Views(byAddr), addrs[i..])
      {
        if addrs[i] in byAddr {
          return Some(byAddr[addrs[i]]);
        }
        assert addrs[i..][1..] == addrs[i + 1..];
        i := i + 1;
      }
      return None;
    }

    method GetEntry(id: NodeId) returns (found: Option<NodeView>)
      requires Valid()
      ensures found.Some? ==> Owns(found.value)
      ensures (if found.Some? then Some(found.value.AsView()) else None)
              == if id in Model().byId then Some(Model().byId[id]) else None
    {
      found := if id in byNodeId then Some(byNodeId[id]) else None;
    }

    // -------------------------------------------------------------- registration

    method InsertIds(v: NodeView, ids: seq<NodeId>)
      requires Valid() && Owns(v)
      modifies this`byNodeId
      ensures Valid()
      ensures Views(byNodeId) == R.InsertAll(old(Views(byNodeId)), ids, v.AsView())
    {
      var i := 0;
      while i < |ids|
        invariant 0 <= i <= |ids| && Valid()
        invariant Views(byNodeId) == R.InsertAll(old(Views(byNodeId)), ids[..i], v.AsView())
      {
        OneMore(old(byNodeId), byNodeId, ids, i, v);
        byNodeId := byNodeId[ids[i] := v];
        i := i + 1;
      }
      assert ids[..i] == ids;
    }

    method InsertAddrs(v: NodeView, addrs: seq<Addr>)
      requires Valid() && Owns(v)
      modifies this`byAddr
      ensures Valid()
      ensures Views(byAddr) == R.InsertAll(old(Views(byAddr)), addrs, v.AsView())
    {
      var i := 0;
      while i < |addrs|
        invariant 0 <= i <= |addrs| && Valid()
        invariant Views(byAddr) == R.InsertAll(old(Views(byAddr)), addrs[..i], v.AsView())
      {
        OneMore(old(byAddr), byAddr, addrs, i, v);
        byAddr := byAddr[addrs[i] := v];
        i := i + 1;
      }
      assert addrs[..i] == addrs;
    }

    /** Make every identity and endpoint lead to `v`. */
    method Insert(v: NodeView, ids: seq<NodeId>, addrs: seq<Addr>)
      requires Valid() && Owns(v)
      modifies this`byNodeId, this`byAddr
      ensures Valid() && Model() == R.Point(old(Model()), v.AsView(), ids, addrs)
    {
      InsertIds(v, ids);
      InsertAddrs(v, addrs);
    }

    method Create(id: NodeId, info: R.NodeInfo) returns (v: NodeView)
      requires Valid()
      modifies this`nodes, this`nextRef, this`nextGeneration
      ensures Valid() && Owns(v) && fresh(v.node) && v.AsView() == R.View(old(nextRef), None)
      ensures nextRef == old(nextRef) + 1
      ensures nodes == old(nodes)[old(nextRef) := v.node]
      ensures Model() == R.AddCell(old(Model()), old(nextRef), id, info)
    {
      var node := new SharedNode(nextRef, id, nextGeneration, info);
      nodes := nodes[nextRef := node];
      nextRef := nextRef + 1;
      nextGeneration := nextGeneration + 1;
      v := NodeView(node, None);
    }

    /** The view for `id`: the registered one, else one found by address, else a new one. */
    method Guard(id: NodeId, addrs: seq<Addr>) returns (v: NodeView)
      requires Valid()
      modifies this
      ensures Valid() && Owns(v)
      ensures (Model(), v.AsView()) == R.Guard(old(Model()), id, addrs, old(nextRef))
    {
      if id in byNodeId {
        return byNodeId[id];
      }
      var found := FindByAddr(addrs);
      if found.Some? {
        return found.value;
      }
      v := Create(id, R.NodeInfo([], addrs, 0));
      Insert(v, [id], addrs);
    }

    /** The first registered identity, and whether all registered ones lead to the same node. */
    method FindGroup(ids: seq<NodeId>) returns (found: Option<NodeView>, consistent: bool)
      requires Valid()
      ensures found.Some? ==> Owns(found.value)
      ensures (if found.Some? then Some(found.value.AsView()) else None) == R.FirstById(Views(byNodeId), ids)
      ensures found.Some? ==> consistent == R.SameGroup(Views(byNodeId), ids, found.value.AsView())
    {
      found, consistent := None, true;
      var i := 0;
      while i < |ids|
        invariant 0 <= i <= |ids|
        invariant found.Some? ==> Owns(found.value)
        invariant if found.Some? then R.FirstById(Views(byNodeId), ids) == Some(found.value.AsView())
                  else R.FirstById(Views(byNodeId), ids) == R.FirstById(Views(byNodeId), ids[i..])
        invariant found.Some? ==> consistent == Together(ids[..i], found.value)
        invariant found.None? ==> consistent && forall k :: k in ids[..i] ==> k !in byNodeId
      {
        assert ids[i..][1..] == ids[i + 1..];
        assert ids[..i + 1] == ids[..i] + [ids[i]];
        if ids[i] in byNodeId {
          if found.None? {
            found := Some(byNodeId[ids[i]]);
          } else if byNodeId[ids[i]].node != found.value.node {
            consistent := false;
          }
        }
        i := i + 1;
      }
      assert ids[..i] == ids;
    }

    ghost predicate Together(ids: seq<NodeId>, v: NodeView)
      reads this
    {
      forall k :: k in ids && k in byNodeId ==> byNodeId[k].node == v.node
    }

    /** Register all identities and endpoints of a peer; refused when they are split over two views. */
    method UpdateEntry(info: R.NodeInfo) returns (ok: bool)
      requires Valid()
      modifies this, nodes.Values
      ensures Valid()
      ensures (Model(), ok) == R.Update(old(Model()), info, old(nextRef))
    {
      if info.identities == [] {
        return false;
      }
      var found, consistent := FindGroup(info.identities);
      var v;
      if found.Some? {
        if !consistent {
          return false;
        }
        v := found.value;
      } else {
        v := Create(info.identities[0], R.NodeInfo([], info.endpoints, info.details));
      }
      Enlist(v, info);
      return true;
    }

    method Enlist(v: NodeView, info: R.NodeInfo)
      requires Valid() && Owns(v) && info.identities != []
      modifies this`byNodeId, this`byAddr, v.node`info
      ensures Valid() && Model() == R.Enlist(old(Model()), v.AsView(), info)
    {
      Insert(v, info.identities, info.endpoints);
      if v.node.id == info.identities[0] {
        ApplyInfo(v, info);
      }
    }

    /** One node changed; the rest of the registry is as it was. */
    twostate lemma OneNodeChanged(v: NodeView)
      requires old(Valid()) && old(Owns(v)) && unchanged(this)
      requires forall c :: c in nodes && c != v.node.ref ==> unchanged(nodes[c])
      ensures Valid() && Model() == old(Model()).(cells := old(Model()).cells[v.node.ref := v.node.Contents()])
    {
    }

    method ApplyInfo(v: NodeView, info: R.NodeInfo)
      requires Valid() && Owns(v)
      modifies v.node`info
      ensures Valid() && Model() == R.ApplyInfo(old(Model()), v.node.ref, info)
    {
      v.node.info := info;
      OneNodeChanged(v);
    }

    // -------------------------------------------------------------- the lifecycle of one view

    /** Ask for a state through a handle. */
    method Transition(v: NodeView, req: Request) returns (ok: bool)
      requires Valid() && Owns(v)
      modifies v.node
      ensures Valid() && (Model(), ok) == R.Try(old(Model()), old(SnapOf(v)), req)
    {
      if !v.IsCurrent() {
        return false;
      }
      var next := SessionStates.Transition(v.node.state, req);
      if next.None? {
        return false;
      }
      v.node.Enter(next.value);
      OneNodeChanged(v);
      return true;
    }

    method BeginClosing(v: NodeView) returns (previous: SessionState)
      requires Valid() && Owns(v)
      modifies v.node
      ensures Valid() && Model() == R.BeginClosing(old(Model()), old(SnapOf(v)))
      ensures previous == if old(v.IsCurrent()) then old(v.node.state) else Closed
    {
      if !v.IsCurrent() {
        return Closed;
      }
      previous := v.node.state;
      v.node.Enter(Closing);
      OneNodeChanged(v);
    }

    /** Ask for the exclusive right to initialize the session; a granted right that does not answer a
        reverse connection starts a new generation. */
    method LockSession(v: NodeView, incoming: bool) returns (lock: SessionLock)
      requires Valid() && Owns(v)
      modifies this`nextGeneration, v.node
      ensures Valid() && lock.view.node == v.node && lock.view.expected.Some?
      ensures var snap := R.Snap(v.node.ref, lock.view.expected.value);
              (Model(), if lock.Permit? then R.Granted(snap, lock.reverse) else R.MustWait(snap))
              == R.LockSession(old(Model()), v.AsView(), incoming)
    {
      var req := if incoming then ToIncoming(ConnectIntent) else ToOutgoing(ConnectIntent);
      var granted := Transition(v, req);
      if !granted {
        return Wait(v.Snapshot());
      }
      if v.node.state.ReverseConnection? {
        return Permit(v.Snapshot(), true);
      }
      StartGeneration(v);
      return Permit(v.Snapshot(), false);
    }

    method StartGeneration(v: NodeView)
      requires Valid() && Owns(v)
      modifies this`nextGeneration, v.node`epoch
      ensures Valid() && v.node.epoch == old(nextGeneration)
      ensures Model() == R.Bump(old(Model()), v.node.ref)
    {
      v.node.epoch := nextGeneration;
      OneNodeChanged(v);
      nextGeneration := nextGeneration + 1;
    }

    // -------------------------------------------------------------- abort handles

    method RegisterAbortable(v: NodeView, handle: nat) returns (aborted: seq<nat>)
      requires Valid() && Owns(v)
      modifies v.node`handles
      ensures Valid() && (Model(), aborted) == R.RegisterHandle(old(Model()), old(SnapOf(v)), handle)
    {
      if v.IsCurrent() && !v.node.state.Closing? && !v.node.state.Closed? {
        v.node.handles := v.node.handles + [handle];
        OneNodeChanged(v);
        return [];
      }
      return [handle];
    }

    method UnregisterAbortable(v: NodeView)
      requires Valid() && Owns(v)
      modifies v.node`handles
      ensures Valid() && Model() == R.ForgetHandles(old(Model()), old(SnapOf(v)))
    {
      if v.IsCurrent() {
        v.node.handles := [];
        OneNodeChanged(v);
      }
    }

    method AbortInitialization(v: NodeView) returns (aborted: seq<nat>)
      requires Valid() && Owns(v)
      modifies v.node`handles
      ensures Valid() && (Model(), aborted) == R.AbortHandles(old(Model()), old(SnapOf(v)))
    {
      if !v.IsCurrent() {
        return [];
      }
      aborted := v.node.handles;
      v.node.handles := [];
      OneNodeChanged(v);
    }

    // -------------------------------------------------------------- retirement and refresh

    /** Retire an identity group, but never a replacement for it. */
    method RemoveGeneration(v: NodeView) returns (removed: bool, aborted: seq<nat>)
      requires Valid() && Owns(v)
      modifies this`byNodeId, this`byAddr, v.node
      ensures Valid() && removed == R.Current(old(Model()), old(SnapOf(v)))
      ensures Model() == R.Retire(old(Model()), old(SnapOf(v)))
      ensures aborted == if removed then old(v.node.handles) else []
    {
      if !v.IsCurrent() {
        return false, [];
      }
      v.node.retired := true;
      aborted := v.node.handles;
      v.node.handles := [];
      v.node.Enter(Closed);
      OneNodeChanged(v);
      RemoveAliases(v);
      return true, aborted;
    }

    method RemoveAliases(v: NodeView)
      requires Valid() && Owns(v)
      modifies this`byNodeId, this`byAddr
      ensures Valid()
      ensures Model() == old(Model()).(byId := R.Without(old(Model()).byId, v.node.ref),
                                       byAddr := R.Without(old(Model()).byAddr, v.node.ref))
    {
      OthersKept(byNodeId, v);
      OthersKept(byAddr, v);
      byNodeId := map k | k in byNodeId && byNodeId[k].node != v.node :: byNodeId[k];
      byAddr := map k | k in byAddr && byAddr[k].node != v.node :: byAddr[k];
    }

    lemma OthersKept<K>(m: map<K, NodeView>, v: NodeView)
      requires Valid() && Owns(v) && (forall k :: k in m ==> Owns(m[k]))
      ensures Views(map k | k in m && m[k].node != v.node :: m[k]) == R.Without(Views(m), v.node.ref)
    {
    }

    /** Does some identity or endpoint already belong to another view? */
    method FindConflict<K(==)>(m: map<K, NodeView>, keys: seq<K>, v: NodeView) returns (found: bool)
      requires Valid() && Owns(v) && (forall k :: k in m ==> Owns(m[k]))
      ensures found == R.Conflicts(Views(m), keys, v.node.ref)
    {
      var i := 0;
      while i < |keys|
        invariant 0 <= i <= |keys|
        invariant forall j :: 0 <= j < i && keys[j] in m ==> m[keys[j]].node == v.node
      {
        if keys[i] in m && m[keys[i]].node != v.node {
          assert keys[i] in Views(m);
          return true;
        }
        i := i + 1;
      }
      return false;
    }

    /** Commit refreshed metadata for the captured generation if the route is still the captured one.
        Nothing changes otherwise. */
    method CommitRefresh(owner: NodeView, info: R.NodeInfo, routeCurrent: bool) returns (committed: bool)
      requires Valid() && Owns(owner)
      modifies this`byNodeId, this`byAddr, owner.node`info
      ensures Valid()
      ensures committed == (routeCurrent && R.CommitAllowed(old(Model()), old(SnapOf(owner)), info))
      ensures Model() == if committed then R.Commit(old(Model()), old(SnapOf(owner)), info) else old(Model())
    {
      if !owner.IsCurrent() || owner.node.state.Closed? || owner.node.state.Closing?
         || owner.node.state.FailedEstablish? || owner.node.id !in info.identities {
        return false;
      }
      var idConflict := FindConflict(byNodeId, info.identities, owner);
      if idConflict {
        return false;
      }
      var addrConflict := FindConflict(byAddr, info.endpoints, owner);
      if addrConflict || !routeCurrent {
        return false;
      }
      Insert(NodeView(owner.node, None), info.identities, info.endpoints);
      ApplyInfo(owner, info);
      return true;
    }
  }
}
