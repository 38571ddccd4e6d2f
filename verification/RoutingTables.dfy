/**
 The three routing tables of the session layer and what publishing, refreshing and closing do to
 them. Sessions and routings are shared immutable objects; `ref` is their identity.
 */
module RoutingTables {
  import opened Wrappers
  import opened Registries

  datatype Session = Session(
    ref: Ref, remote: Addr, defaultId: NodeId, identities: seq<NodeId>, generation: nat)

  datatype Routing = Routing(
    ref: Ref, defaultId: NodeId, identities: seq<NodeId>, route: Session, generation: nat)

  datatype Tables = Tables(
    nodes: map<NodeId, Routing>,
    sessions: map<Addr, Session>,
    p2pNodes: map<NodeId, Session>)

  const EmptyTables := Tables(map[], map[], map[])

  function PutAll<V>(m: map<NodeId, V>, keys: seq<NodeId>, v: V): map<NodeId, V> {
    m + map k | k in keys :: v
  }

  lemma PutOneMore<V>(m: map<NodeId, V>, keys: seq<NodeId>, i: nat, v: V)
    requires i < |keys|
    ensures PutAll(m, keys[..i + 1], v) == PutAll(m, keys[..i], v)[keys[i] := v]
  {
    assert keys[..i + 1] == keys[..i] + [keys[i]];
  }

  /** A relay announces no identities: only its address is published and it has no routing. */
  function PublishSession(t: Tables, s: Session, routing: Option<Routing>): Tables {
    Tables(
      if routing.Some? then PutAll(t.nodes, s.identities, routing.value) else t.nodes,
      t.sessions[s.remote := s],
      PutAll(t.p2pNodes, s.identities, s))
  }

  /** Every key of `keys` leads to `v`, every other key leads where it led before. */
  ghost predicate Leads<V>(m: map<NodeId, V>, m': map<NodeId, V>, keys: seq<NodeId>, v: V) {
    && (forall k :: k in keys ==> k in m' && m'[k] == v)
    && (forall k :: k !in keys ==> (k in m' <==> k in m) && (k in m && k in m' ==> m'[k] == m[k]))
  }

  /** A published session is found under its address and under each of its identities, as peer and as route;
      all other entries stay. */
  lemma PublishedIsFound(t: Tables, s: Session, routing: Option<Routing>)
    ensures var t' := PublishSession(t, s, routing);
            && t'.sessions.Keys == t.sessions.Keys + {s.remote} && t'.sessions[s.remote] == s
            && (forall a :: a in t.sessions && a != s.remote ==> t'.sessions[a] == t.sessions[a])
            && Leads(t.p2pNodes, t'.p2pNodes, s.identities, s)
            && (if routing.Some? then Leads(t.nodes, t'.nodes, s.identities, routing.value) else t'.nodes == t.nodes)
  {
  }

  lemma RoutingIsFound(t: Tables, r: Routing)
    ensures var t' := PublishRouting(t, r);
            Leads(t.nodes, t'.nodes, r.identities, r) && t'.sessions == t.sessions && t'.p2pNodes == t.p2pNodes
  {
  }

  /** The physical session `s` is the one its address currently leads to. */
  predicate RouteCurrent(t: Tables, s: Session) {
    s.remote in t.sessions && t.sessions[s.remote].ref == s.ref
  }

  function PublishRouting(t: Tables, r: Routing): Tables {
    t.(nodes := PutAll(t.nodes, r.identities, r))
  }

  /** A refresh may replace `original` under `id` only while it is still there and its route is. */
  predicate RefreshAllowed(t: Tables, id: NodeId, original: Routing) {
    && id in t.nodes && t.nodes[id].ref == original.ref
    && RouteCurrent(t, original.route)
  }

  function RoutesOtherThan(m: map<NodeId, Routing>, gen: nat): map<NodeId, Routing> {
    map k | k in m && m[k].generation != gen :: m[k]
  }

  /** Remove every entry of one generation. */
  function SweepGeneration(t: Tables, gen: nat): Tables {
    Tables(
      RoutesOtherThan(t.nodes, gen),
      map k | k in t.sessions && t.sessions[k].generation != gen :: t.sessions[k],
      map k | k in t.p2pNodes && t.p2pNodes[k].generation != gen :: t.p2pNodes[k])
  }

  /** Remove every entry that uses one physical session. */
  function SweepSession(t: Tables, ref: Ref): Tables {
    Tables(
      map k | k in t.nodes && t.nodes[k].route.ref != ref :: t.nodes[k],
      map k | k in t.sessions && t.sessions[k].ref != ref :: t.sessions[k],
      map k | k in t.p2pNodes && t.p2pNodes[k].ref != ref :: t.p2pNodes[k])
  }

  predicate MentionsGeneration(t: Tables, gen: nat) {
    || (exists k :: k in t.nodes && t.nodes[k].generation == gen)
    || (exists k :: k in t.sessions && t.sessions[k].generation == gen)
    || (exists k :: k in t.p2pNodes && t.p2pNodes[k].generation == gen)
  }

  predicate MentionsSession(t: Tables, ref: Ref) {
    || (exists k :: k in t.nodes && t.nodes[k].route.ref == ref)
    || (exists k :: k in t.sessions && t.sessions[k].ref == ref)
    || (exists k :: k in t.p2pNodes && t.p2pNodes[k].ref == ref)
  }

  /** `t'` was obtained from `t` by deletions only, and no entry outside `gens` and off the sessions
      `refs` was deleted. */
  predicate OnlyDrops(t: Tables, t': Tables, gens: set<nat>, refs: set<Ref>) {
    && Shrinks(t, t')
    && (forall k :: k in t.nodes && t.nodes[k].generation !in gens && t.nodes[k].route.ref !in refs
          ==> k in t'.nodes)
    && (forall k :: k in t.sessions && t.sessions[k].generation !in gens && t.sessions[k].ref !in refs
          ==> k in t'.sessions)
    && (forall k :: k in t.p2pNodes && t.p2pNodes[k].generation !in gens && t.p2pNodes[k].ref !in refs
          ==> k in t'.p2pNodes)
  }

  /** Deletions only. */
  predicate Shrinks(t: Tables, t': Tables) {
    && (forall k :: k in t'.nodes ==> k in t.nodes && t'.nodes[k] == t.nodes[k])
    && (forall k :: k in t'.sessions ==> k in t.sessions && t'.sessions[k] == t.sessions[k])
    && (forall k :: k in t'.p2pNodes ==> k in t.p2pNodes && t'.p2pNodes[k] == t.p2pNodes[k])
  }

  lemma SweepsNothing(t: Tables, gens: set<nat>, refs: set<Ref>)
    ensures OnlyDrops(t, t, gens, refs)
  {
  }

  lemma SweepsGeneration(t: Tables, gen: nat)
    ensures OnlyDrops(t, SweepGeneration(t, gen), {gen}, {})
  {
  }

  lemma SweepsSession(t: Tables, ref: Ref)
    ensures OnlyDrops(t, SweepSession(t, ref), {}, {ref})
  {
  }

  lemma SweepsRoutes(t: Tables, gen: nat)
    ensures OnlyDrops(t, t.(nodes := RoutesOtherThan(t.nodes, gen)), {gen}, {})
  {
  }

  lemma SweepsAreComplete(t: Tables, gen: nat, ref: Ref)
    ensures !MentionsGeneration(SweepGeneration(t, gen), gen)
    ensures !MentionsSession(SweepSession(t, ref), ref)
  {
  }

  lemma DropsContinue(t: Tables, t': Tables, t'': Tables, gens: set<nat>, gen: nat)
    requires OnlyDrops(t, t', gens, {}) && gen in gens
    requires t'' == t' || t'' == t'.(nodes := RoutesOtherThan(t'.nodes, gen))
    ensures OnlyDrops(t, t'', gens, {})
  {
    DropsCompose(t, t', gens, gen, 0);
  }

  lemma DropsCompose(t: Tables, t': Tables, gens: set<nat>, gen: nat, ref: Ref)
    requires OnlyDrops(t, t', gens, {})
    ensures gen in gens ==> OnlyDrops(t, t'.(nodes := RoutesOtherThan(t'.nodes, gen)), gens, {})
    ensures OnlyDrops(t, SweepSession(t', ref), gens, {ref})
  {
  }
}
