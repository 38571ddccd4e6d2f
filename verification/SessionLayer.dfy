/**
 The session layer's routing tables as they are kept in memory, and the operations that publish,
 refresh and close sessions. Each method runs without suspension; the postconditions equate the
 tables and the registry with the functions of the routing and registry models.
 */
module SessionLayers {
  import opened Wrappers
  import opened NetworkViews
  import R = Registries
  import T = RoutingTables
  import P = Protocol

  ghost predicate NothingRegistered(r: R.Registry, r': R.Registry) {
    forall i, g :: P.Registered(r', i, g) ==> P.Registered(r, i, g)
  }

  /** Whoever is registered for a generation outside `gens` stays so. */
  ghost predicate OthersStay(r: R.Registry, r': R.Registry, gens: set<nat>) {
    forall i, g :: P.Registered(r, i, g) && g !in gens ==> P.Registered(r', i, g)
  }

  ghost predicate AllUnregistered(r: R.Registry, owners: set<(NodeId, nat)>) {
    forall o :: o in owners ==> !P.Registered(r, o.0, o.1)
  }

  lemma OneMoreUnregistered(r: R.Registry, r': R.Registry, owners: set<(NodeId, nat)>, rest: set<(NodeId, nat)>,
                            o: (NodeId, nat))
    requires AllUnregistered(r, owners - rest) && NothingRegistered(r, r') && !P.Registered(r', o.0, o.1)
    ensures AllUnregistered(r', owners - (rest - {o}))
  {
    forall x | x in owners - (rest - {o}) ensures !P.Registered(r', x.0, x.1) {
      assert x == o || x in owners - rest;
    }
  }

  lemma OthersStillThere(a: R.Registry, b: R.Registry, c: R.Registry, gens: set<nat>, gen: nat)
    requires OthersStay(a, b, gens) && OthersStay(b, c, {gen}) && gen in gens
    ensures OthersStay(a, c, gens)
  {
  }

  /** Retiring the registered generation of an identity unregisters it, and registers nothing. */
  lemma RetiredOwner(r: R.Registry, r': R.Registry, id: NodeId, gen: nat)
    requires R.RegistryOk(r)
    requires r' == if P.Registered(r, id, gen) && R.Current(r, R.Snapshot(r, r.byId[id]))
                   then R.Retire(r, R.Snapshot(r, r.byId[id])) else r
    ensures R.RegistryOk(r') && !P.Registered(r', id, gen)
    ensures NothingRegistered(r, r') && OthersStay(r, r', {gen})
  {
    if P.Registered(r, id, gen) {
      R.RetireOk(r, R.Snapshot(r, r.byId[id]));
      R.RetireRemovesExactly(r, R.Snapshot(r, r.byId[id]));
    }
  }

  /** The owners are unregistered and nobody else is. */
  ghost predicate Disowned(r: R.Registry, r': R.Registry, owners: set<(NodeId, nat)>, gens: set<nat>) {
    AllUnregistered(r', owners) && OthersStay(r, r', gens)
  }

  /** Only generations that the session concerns lose anything, and only they and its own entries are lost. */
  ghost predicate OnlyConcerned(t: T.Tables, t': T.Tables, r: R.Registry, r': R.Registry, session: T.Session) {
    exists gens: set<nat> ::
      && (forall g: nat :: g in gens <==> P.GenerationConcerned(t, session, g))
      && T.OnlyDrops(t, t', gens, {session.ref}) && OthersStay(r, r', gens)
  }

  lemma ConcernedAreGone(t: T.Tables, t': T.Tables, r: R.Registry, r': R.Registry, session: T.Session)
    requires T.OnlyDrops(t, t', P.OwningGenerations(t, session), {session.ref})
    requires Disowned(r, r', P.Owners(t, session), P.OwningGenerations(t, session))
    ensures forall k :: k in t.nodes && t.nodes[k].route.ref == session.ref ==>
              !P.Registered(r', k, t.nodes[k].generation)
    ensures !P.Registered(r', session.defaultId, session.generation)
    ensures OnlyConcerned(t, t', r, r', session)
  {
    P.OwnersAreConcerned(t, session);
    forall k | k in t.nodes && t.nodes[k].route.ref == session.ref
      ensures !P.Registered(r', k, t.nodes[k].generation)
    {
      assert P.ConcernedBy(t, session, k, t.nodes[k].generation);
      assert (k, t.nodes[k].generation) in P.Owners(t, session);
    }
    assert P.ConcernedBy(t, session, session.defaultId, session.generation);
    assert (session.defaultId, session.generation) in P.Owners(t, session);
  }

  class SessionLayer {
    const registry: NetworkView
    var nodes: map<NodeId, T.Routing>
    var p2pSessions: map<Addr, T.Session>
    var p2pNodes: map<NodeId, T.Session>

    constructor (registry: NetworkView)
      ensures this.registry == registry && Tables() == T.EmptyTables
    {
      this.registry := registry;
      nodes := map[];
      p2pSessions := map[];
      p2pNodes := map[];
    }

    ghost function Tables(): T.Tables
      reads this
    {
      T.Tables(nodes, p2pSessions, p2pNodes)
    }

    twostate lemma SameRegistry()
      requires unchanged(registry) && forall n :: n in registry.nodes.Values ==> unchanged(n)
      ensures registry.Model() == old(registry.Model())
    {
    }

    /** May something still be published for this generation? */
    predicate PublicationOpen(owner: NodeView)
      reads owner.node
    {
      && owner.IsCurrent()
      && !owner.node.state.Closing? && !owner.node.state.Closed? && !owner.node.state.FailedEstablish?
    }

    // -------------------------------------------------------------- publication

    method InsertRouting(routing: T.Routing, ids: seq<NodeId>)
      modifies this`nodes
      ensures nodes == T.PutAll(old(nodes), ids, routing)
    {
      var i := 0;
      while i < |ids|
        invariant 0 <= i <= |ids|
        invariant nodes == T.PutAll(old(nodes), ids[..i], routing)
      {
        T.PutOneMore(old(nodes), ids, i, routing);
        nodes := nodes[ids[i] := routing];
        i := i + 1;
      }
      assert ids[..i] == ids;
    }

    method InsertSession(session: T.Session)
      modifies this`p2pSessions, this`p2pNodes
      ensures p2pSessions == old(p2pSessions)[session.remote := session]
      ensures p2pNodes == T.PutAll(old(p2pNodes), session.identities, session)
    {
      p2pSessions := p2pSessions[session.remote := session];
      var ids := session.identities;
      var i := 0;
      while i < |ids|
        invariant 0 <= i <= |ids|
        invariant p2pSessions == old(p2pSessions)[session.remote := session]
        invariant p2pNodes == T.PutAll(old(p2pNodes), ids[..i], session)
      {
        T.PutOneMore(old(p2pNodes), ids, i, session);
        p2pNodes := p2pNodes[ids[i] := session];
        i := i + 1;
      }
      assert ids[..i] == ids;
    }

    /** Publish an initialized session for the generation of `owner`. A peer must announce its default
        identity; a relay announces none and gets no routing. */
    method RegisterSession(owner: NodeView, remote: Addr, nodeId: NodeId, identities: seq<NodeId>,
                           sessionRef: R.Ref, routingRef: R.Ref) returns (published: Option<T.Session>)
      requires registry.Valid() && registry.Owns(owner)
      modifies this
      ensures published.Some? <==>
              && R.PublicationOpen(registry.Model(), registry.SnapOf(owner))
              && (identities == [] || nodeId in identities)
      ensures published.Some? ==>
              var session := T.Session(sessionRef, remote, nodeId, identities, owner.Generation());
              var routing := T.Routing(routingRef, nodeId, identities, session, owner.Generation());
              && published.value == session
              && Tables() == T.PublishSession(old(Tables()), session, if identities == [] then None else Some(routing))
      ensures published.None? ==> Tables() == old(Tables())
    {
      if !PublicationOpen(owner) || (identities != [] && nodeId !in identities) {
        return None;
      }
      var session := T.Session(sessionRef, remote, nodeId, identities, owner.Generation());
      InsertSession(session);
      if identities != [] {
        InsertRouting(T.Routing(routingRef, nodeId, identities, session, owner.Generation()), identities);
      }
      return Some(session);
    }

    /** Publish a routing, if its generation is the registered one and its physical session is still
        the one its address leads to. */
    method RegisterRouting(routing: T.Routing) returns (ok: bool)
      requires registry.Valid()
      modifies this`nodes
      ensures ok <==>
              && P.Registered(registry.Model(), routing.defaultId, routing.generation)
              && R.PublicationOpen(registry.Model(),
                                   R.Snapshot(registry.Model(), registry.Model().byId[routing.defaultId]))
              && T.RouteCurrent(old(Tables()), routing.route)
      ensures Tables() == if ok then T.PublishRouting(old(Tables()), routing) else old(Tables())
    {
      var entry := registry.GetEntry(routing.defaultId);
      if entry.None? {
        return false;
      }
      var owner := entry.value.Snapshot();
      if !PublicationOpen(owner) || owner.Generation() != routing.generation {
        return false;
      }
      var addr := routing.route.remote;
      if addr !in p2pSessions || p2pSessions[addr].ref != routing.route.ref {
        return false;
      }
      InsertRouting(routing, routing.identities);
      return true;
    }

    /** Replace a captured routing by a refreshed one: all or nothing. */
    method PublishEncryptionRefresh(id: NodeId, owner: NodeView, original: T.Routing, info: R.NodeInfo,
                                    routingRef: R.Ref) returns (ok: bool)
      requires registry.Valid() && registry.Owns(owner)
      modifies this`nodes, registry`byNodeId, registry`byAddr, owner.node`info
      ensures registry.Valid()
      ensures var r, s := old(registry.Model()), old(registry.SnapOf(owner));
              && (ok <==> && info.identities != [] && info.identities[0] == original.defaultId
                          && R.CommitAllowed(r, s, info) && T.RefreshAllowed(old(Tables()), id, original))
              && registry.Model() == (if ok then R.Commit(r, s, info) else r)
              && var renewed := T.Routing(routingRef, original.defaultId, info.identities, original.route, s.gen);
                 Tables() == if ok then T.PublishRouting(old(Tables()), renewed) else old(Tables())
    {
      if info.identities == [] || info.identities[0] != original.defaultId {
        return false;
      }
      var remote := original.route.remote;
      var routeCurrent := && id in nodes && nodes[id].ref == original.ref
                          && remote in p2pSessions && p2pSessions[remote].ref == original.route.ref;
      var generation := owner.Generation();
      ok := registry.CommitRefresh(owner, info, routeCurrent);
      if ok {
        InsertRouting(T.Routing(routingRef, original.defaultId, info.identities, original.route, generation),
                      info.identities);
      }
    }

    // -------------------------------------------------------------- closing

    method RemoveRoutes(generation: nat)
      modifies this`nodes
      ensures nodes == T.RoutesOtherThan(old(nodes), generation)
    {
      var ids := set id | id in nodes && nodes[id].generation == generation;
      while ids != {}
        invariant ids == set id | id in nodes && nodes[id].generation == generation
        invariant T.RoutesOtherThan(nodes, generation) == T.RoutesOtherThan(old(nodes), generation)
        decreases ids
      {
        var id :| id in ids;
        nodes := nodes - {id};
        ids := ids - {id};
      }
      forall id | id in nodes ensures nodes[id].generation != generation {
        assert id !in ids;
      }
      assert nodes == T.RoutesOtherThan(nodes, generation);
    }

    /** Retire a generation and remove everything it published; its physical session, if there is one,
        remains to be closed. */
    method UnregisterGeneration(v: NodeView) returns (direct: Option<T.Session>)
      requires registry.Valid() && registry.Owns(v)
      modifies this, registry`byNodeId, registry`byAddr, v.node
      ensures registry.Valid()
      ensures var r, s := old(registry.Model()), old(registry.SnapOf(v));
              && registry.Model() == R.Retire(r, s)
              && Tables() == (if R.Current(r, s) then T.SweepGeneration(old(Tables()), s.gen) else old(Tables()))
              && (direct.Some? ==> R.Current(r, s) && direct.value in old(p2pSessions).Values
                                   && direct.value.generation == s.gen)
              && (direct.None? && R.Current(r, s) ==>
                    forall a :: a in old(p2pSessions) ==> old(p2pSessions)[a].generation != s.gen)
    {
      var generation := v.Generation();
      var removed, _ := registry.RemoveGeneration(v);
      if !removed {
        return None;
      }
      direct := FindSession(generation);
      SweepGeneration(generation);
    }

    method FindSession(generation: nat) returns (direct: Option<T.Session>)
      ensures direct.Some? ==> direct.value in p2pSessions.Values && direct.value.generation == generation
      ensures direct.None? ==> forall a :: a in p2pSessions ==> p2pSessions[a].generation != generation
    {
      if a :| a in p2pSessions && p2pSessions[a].generation == generation {
        return Some(p2pSessions[a]);
      }
      return None;
    }

    method SweepGeneration(generation: nat)
      modifies this
      ensures Tables() == T.SweepGeneration(old(Tables()), generation)
    {
      RemoveRoutes(generation);
      p2pNodes := map k | k in p2pNodes && p2pNodes[k].generation != generation :: p2pNodes[k];
      p2pSessions := map a | a in p2pSessions && p2pSessions[a].generation != generation :: p2pSessions[a];
    }

    method SweepSession(session: T.Session)
      modifies this
      ensures Tables() == T.SweepSession(old(Tables()), session.ref)
    {
      p2pNodes := map k | k in p2pNodes && p2pNodes[k].ref != session.ref :: p2pNodes[k];
      p2pSessions := map a | a in p2pSessions && p2pSessions[a].ref != session.ref :: p2pSessions[a];
      nodes := map k | k in nodes && nodes[k].route.ref != session.ref :: nodes[k];
    }

    /** Retire the generation that still owns a route, and drop its routes. */
    method RetireOwner(id: NodeId, generation: nat)
      requires registry.Valid()
      modifies this`nodes, registry`byNodeId, registry`byAddr, registry.nodes.Values
      ensures registry.Valid() && unchanged(registry`nodes)
      ensures var r := old(registry.Model());
              if P.Registered(r, id, generation) && R.Current(r, R.Snapshot(r, r.byId[id])) then
                && registry.Model() == R.Retire(r, R.Snapshot(r, r.byId[id]))
                && nodes == T.RoutesOtherThan(old(nodes), generation)
              else
                registry.Model() == r && nodes == old(nodes)
    {
      var entry := registry.GetEntry(id);
      if entry.Some? {
        var owner := entry.value.Snapshot();
        if owner.Generation() == generation {
          var removed, _ := registry.RemoveGeneration(owner);
          if removed {
            RemoveRoutes(generation);
          }
        }
      }
    }

    /** The owner is unregistered, and nothing but routes of its generation is dropped. */
    method Unown(id: NodeId, generation: nat)
      requires registry.Valid() && R.RegistryOk(registry.Model())
      modifies this`nodes, registry`byNodeId, registry`byAddr, registry.nodes.Values
      ensures registry.Valid() && R.RegistryOk(registry.Model()) && unchanged(registry`nodes)
      ensures !P.Registered(registry.Model(), id, generation)
      ensures NothingRegistered(old(registry.Model()), registry.Model())
      ensures OthersStay(old(registry.Model()), registry.Model(), {generation})
      ensures nodes == old(nodes) || nodes == T.RoutesOtherThan(old(nodes), generation)
    {
      ghost var r := registry.Model();
      RetireOwner(id, generation);
      RetiredOwner(r, registry.Model(), id, generation);
    }

    method RetireOwners(owners: set<(NodeId, nat)>, ghost gens: set<nat>, ghost t: T.Tables, ghost r: R.Registry)
      requires registry.Valid() && R.RegistryOk(registry.Model()) && t == Tables() && r == registry.Model()
      requires forall o :: o in owners ==> o.1 in gens
      modifies this`nodes, registry`byNodeId, registry`byAddr, registry.nodes.Values
      ensures registry.Valid() && R.RegistryOk(registry.Model())
      ensures T.OnlyDrops(t, Tables(), gens, {})
      ensures Disowned(r, registry.Model(), owners, gens)
    {
      var rest := owners;
      while rest != {}
        invariant registry.Valid() && R.RegistryOk(registry.Model()) && registry.nodes == old(registry.nodes)
        invariant rest <= owners
        invariant T.OnlyDrops(t, Tables(), gens, {})
        invariant AllUnregistered(registry.Model(), owners - rest)
        invariant OthersStay(r, registry.Model(), gens)
        decreases rest
      {
        var o :| o in rest;
        ghost var r1, t1 := registry.Model(), Tables();
        Unown(o.0, o.1);
        OthersStillThere(r, r1, registry.Model(), gens, o.1);
        T.DropsContinue(t, t1, Tables(), gens, o.1);
        OneMoreUnregistered(r1, registry.Model(), owners, rest, o);
        rest := rest - {o};
      }
      assert owners - rest == owners;
    }

    method FindOwners(session: T.Session) returns (owners: set<(NodeId, nat)>, ghost gens: set<nat>)
      ensures owners == P.Owners(Tables(), session) && gens == P.OwningGenerations(Tables(), session)
      ensures forall o :: o in owners ==> o.1 in gens
    {
      gens := P.OwningGenerations(Tables(), session);
      owners := (set k | k in nodes && nodes[k].route.ref == session.ref :: (k, nodes[k].generation))
                + {(session.defaultId, session.generation)};
    }

    /** Close a physical session. Every generation that routes through it is retired first, so that no
        late handshake can publish through it: afterwards no peer that was routed through the session, nor its
        own, is registered for that generation, and no table leads to the session. No other generation and no
        entry of another generation that leads elsewhere is affected. */
    method UnregisterSession(session: T.Session)
      requires registry.Valid() && R.RegistryOk(registry.Model())
      modifies this, registry`byNodeId, registry`byAddr, registry.nodes.Values
      ensures registry.Valid() && R.RegistryOk(registry.Model())
      ensures !T.MentionsSession(Tables(), session.ref)
      ensures forall k :: k in old(nodes) && old(nodes)[k].route.ref == session.ref ==>
                !P.Registered(registry.Model(), k, old(nodes)[k].generation)
      ensures !P.Registered(registry.Model(), session.defaultId, session.generation)
      ensures OnlyConcerned(old(Tables()), Tables(), old(registry.Model()), registry.Model(), session)
    {
      RetireAndSweep(session, Tables(), registry.Model());
      ConcernedAreGone(old(Tables()), Tables(), old(registry.Model()), registry.Model(), session);
    }

    method RetireAndSweep(session: T.Session, ghost t: T.Tables, ghost r: R.Registry)
      requires registry.Valid() && R.RegistryOk(registry.Model()) && t == Tables() && r == registry.Model()
      modifies this, registry`byNodeId, registry`byAddr, registry.nodes.Values
      ensures registry.Valid() && R.RegistryOk(registry.Model())
      ensures !T.MentionsSession(Tables(), session.ref)
      ensures T.OnlyDrops(t, Tables(), P.OwningGenerations(t, session), {session.ref})
      ensures Disowned(r, registry.Model(), P.Owners(t, session), P.OwningGenerations(t, session))
    {
      var owners, gens := FindOwners(session);
      RetireOwners(owners, gens, t, r);
      FinalSweep(session, t, gens);
    }

    method FinalSweep(session: T.Session, ghost before: T.Tables, ghost gens: set<nat>)
      requires registry.Valid() && T.OnlyDrops(before, Tables(), gens, {})
      modifies this
      ensures registry.Valid() && registry.Model() == old(registry.Model())
      ensures !T.MentionsSession(Tables(), session.ref)
      ensures T.OnlyDrops(before, Tables(), gens, {session.ref})
    {
      T.DropsCompose(before, Tables(), gens, 0, session.ref);
      T.SweepsAreComplete(Tables(), 0, session.ref);
      SweepSession(session);
      SameRegistry();
    }
  }
}
