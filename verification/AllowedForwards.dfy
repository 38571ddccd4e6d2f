/**
 The two-way index of peers we forward for: a slot leads to a group of identities, and every identity
 leads back to its slot.
 */
module ForwardIndexes {
  import opened Wrappers

  type NodeId = nat
  type SlotId = nat

  datatype NodeEntry = NodeEntry(defaultId: NodeId, identities: seq<NodeId>)

  datatype Index = Index(slots: map<SlotId, NodeEntry>, nodes: map<NodeId, SlotId>)

  const Empty := Index(map[], map[])

  // ---------------------------------------------------------------- operations

  function Remove(x: Index, id: NodeId): (Index, Option<NodeEntry>) {
    if id !in x.nodes then (x, None)
    else
      var slot := x.nodes[id];
      if slot !in x.slots then (x.(nodes := x.nodes - {id}), None)
      else
        (Index(x.slots - {slot}, x.nodes - ({id} + AsSet(x.slots[slot].identities))), Some(x.slots[slot]))
  }

  function RemoveBySlot(x: Index, slot: SlotId): (Index, Option<NodeId>) {
    if slot !in x.slots then (x, None)
    else (Remove(x, x.slots[slot].defaultId).0, Some(x.slots[slot].defaultId))
  }

  function RemoveEach(x: Index, ids: seq<NodeId>): Index
    decreases |ids|
  {
    if ids == [] then x else RemoveEach(Remove(x, ids[0]).0, ids[1..])
  }

  function Cleared(x: Index, node: NodeEntry, slot: SlotId): Index {
    RemoveEach(Remove(RemoveBySlot(x, slot).0, node.defaultId).0, node.identities)
  }

  function Insert(x: Index, node: NodeEntry, slot: SlotId): Index {
    Index(x.slots[slot := node], x.nodes + map i | i in node.identities :: slot)
  }

  function Add(x: Index, node: NodeEntry, slot: SlotId): Index {
    Insert(Cleared(x, node, slot), node, slot)
  }

  function GetById(x: Index, id: NodeId): Option<NodeEntry> {
    if id in x.nodes && x.nodes[id] in x.slots then Some(x.slots[x.nodes[id]]) else None
  }

  // ---------------------------------------------------------------- the two maps mirror each other

  predicate Mirrored(x: Index) {
    && (forall i :: i in x.nodes ==> x.nodes[i] in x.slots && i in x.slots[x.nodes[i]].identities)
    && (forall k, i :: k in x.slots && i in x.slots[k].identities ==> i in x.nodes && x.nodes[i] == k)
  }

  /** Entries list their default identity. */
  predicate Documented(x: Index) {
    forall k :: k in x.slots ==> x.slots[k].defaultId in x.slots[k].identities
  }

  /** The index without some slots: the reference for every removal. */
  function Without(x: Index, gone: set<SlotId>): Index {
    Index(x.slots - gone, map i | i in x.nodes && x.nodes[i] !in gone :: x.nodes[i])
  }

  function AsSet(ids: seq<NodeId>): set<NodeId> {
    set i | i in ids
  }

  /** The slots that some identity leads to. */
  function Hit(x: Index, ids: set<NodeId>): set<SlotId> {
    set i | i in ids && i in x.nodes :: x.nodes[i]
  }

  lemma WithoutMirrored(x: Index, gone: set<SlotId>)
    requires Mirrored(x)
    ensures Mirrored(Without(x, gone))
    ensures Documented(x) ==> Documented(Without(x, gone))
  {
  }

  lemma RemoveIs(x: Index, id: NodeId)
    requires Mirrored(x)
    ensures Remove(x, id).0 == Without(x, Hit(x, {id}))
    ensures Remove(x, id).1 == GetById(x, id)
  {
    if id in x.nodes {
      assert Hit(x, {id}) == {x.nodes[id]};
    } else {
      assert Hit(x, {id}) == {};
      assert x == Without(x, {});
    }
  }

  lemma WithoutTwice(x: Index, a: set<SlotId>, b: set<SlotId>)
    ensures Without(Without(x, a), b) == Without(x, a + b)
  {
  }

  lemma HitTwice(x: Index, a: set<NodeId>, b: set<NodeId>)
    requires Mirrored(x)
    ensures Without(Without(x, Hit(x, a)), Hit(Without(x, Hit(x, a)), b)) == Without(x, Hit(x, a + b))
  {
    var y := Without(x, Hit(x, a));
    WithoutTwice(x, Hit(x, a), Hit(y, b));
    forall k ensures k in Hit(x, a) + Hit(y, b) <==> k in Hit(x, a + b) {
      if k in Hit(x, a + b) {
        var i :| i in a + b && i in x.nodes && x.nodes[i] == k;
        if i in b && i in y.nodes {
          assert y.nodes[i] == k;
        }
      }
      if k in Hit(x, a) {
        var i :| i in a && i in x.nodes && x.nodes[i] == k;
        assert i in a + b;
      }
      if k in Hit(y, b) {
        var i :| i in b && i in y.nodes && y.nodes[i] == k;
        assert i in a + b;
      }
    }
    assert Hit(x, a) + Hit(y, b) == Hit(x, a + b);
  }

  /** Removing identities one by one, with overlapping groups, removes exactly the groups they are in. */
  lemma {:induction false} RemoveEachIs(x: Index, ids: seq<NodeId>)
    requires Mirrored(x)
    ensures RemoveEach(x, ids) == Without(x, Hit(x, AsSet(ids)))
    decreases |ids|
  {
    if ids == [] {
      assert Hit(x, AsSet(ids)) == {};
      assert x == Without(x, {});
    } else {
      var y := Without(x, Hit(x, {ids[0]}));
      RemoveIs(x, ids[0]);
      WithoutMirrored(x, Hit(x, {ids[0]}));
      RemoveEachIs(y, ids[1..]);
      HitTwice(x, {ids[0]}, AsSet(ids[1..]));
      HeadAndTail(ids);
    }
  }

  lemma HeadAndTail(ids: seq<NodeId>)
    requires ids != []
    ensures {ids[0]} + AsSet(ids[1..]) == AsSet(ids)
  {
    forall i ensures i in ids <==> i == ids[0] || i in ids[1..] {
      if i in ids && i != ids[0] {
        var j :| 0 <= j < |ids| && ids[j] == i;
        assert ids[1..][j - 1] == i;
      }
    }
  }

  // ---------------------------------------------------------------- adding

  /** Everything that has to go before `node` can be stored at `slot`. */
  function Displaced(x: Index, node: NodeEntry, slot: SlotId): set<SlotId> {
    Hit(x, (if slot in x.slots then {x.slots[slot].defaultId} else {}) + {node.defaultId} + AsSet(node.identities))
  }

  lemma ClearedIs(x: Index, node: NodeEntry, slot: SlotId)
    requires Mirrored(x)
    ensures Cleared(x, node, slot) == Without(x, Displaced(x, node, slot))
  {
    var first: set<NodeId> := if slot in x.slots then {x.slots[slot].defaultId} else {};
    var ids := AsSet(node.identities);
    var y := RemoveBySlot(x, slot).0;
    if slot in x.slots {
      RemoveIs(x, x.slots[slot].defaultId);
    } else {
      assert Hit(x, {}) == {};
      assert x == Without(x, {});
    }
    assert y == Without(x, Hit(x, first));
    WithoutMirrored(x, Hit(x, first));
    RemoveIs(y, node.defaultId);
    HitTwice(x, first, {node.defaultId});
    var z := Remove(y, node.defaultId).0;
    assert z == Without(x, Hit(x, first + {node.defaultId}));
    WithoutMirrored(x, Hit(x, first + {node.defaultId}));
    RemoveEachIs(z, node.identities);
    HitTwice(x, first + {node.defaultId}, ids);
  }

  /** Storing `node` at `slot` keeps the maps mirrored exactly when the entry that was there, if any, is
      reached by the clean-up: through its own default identity or through an identity of `node`. */
  predicate Replaceable(x: Index, node: NodeEntry, slot: SlotId) {
    slot in x.slots && x.slots[slot].identities != [] ==>
      || x.slots[slot].defaultId in x.slots[slot].identities
      || node.defaultId in x.slots[slot].identities
      || exists i :: i in node.identities && i in x.slots[slot].identities
  }

  lemma ReplaceableMeansDisplaced(x: Index, node: NodeEntry, slot: SlotId)
    requires Mirrored(x) && slot in x.slots && x.slots[slot].identities != []
    ensures Replaceable(x, node, slot) <==> slot in Displaced(x, node, slot)
  {
    var e := x.slots[slot];
    var ids := {e.defaultId} + {node.defaultId} + AsSet(node.identities);
    assert Displaced(x, node, slot) == Hit(x, ids);
    if slot in Hit(x, ids) {
      var i :| i in ids && i in x.nodes && x.nodes[i] == slot;
      assert i in e.identities;
      assert i == e.defaultId || i == node.defaultId || i in node.identities;
    }
    if Replaceable(x, node, slot) {
      if e.defaultId in e.identities {
        assert x.nodes[e.defaultId] == slot;
      } else if node.defaultId in e.identities {
        assert x.nodes[node.defaultId] == slot;
      } else {
        var i :| i in node.identities && i in e.identities;
        assert i in ids && x.nodes[i] == slot;
      }
    }
  }

  lemma AddKeepsMirrored(x: Index, node: NodeEntry, slot: SlotId)
    requires Mirrored(x)
    ensures Mirrored(Add(x, node, slot)) <==> Replaceable(x, node, slot)
  {
    ClearedIs(x, node, slot);
    var gone := Displaced(x, node, slot);
    var y := Without(x, gone);
    WithoutMirrored(x, gone);
    forall i | i in node.identities ensures i !in y.nodes {
      if i in x.nodes {
        assert x.nodes[i] in gone;
      }
    }
    if slot in x.slots && x.slots[slot].identities != [] {
      ReplaceableMeansDisplaced(x, node, slot);
      if slot !in gone {
        var i := x.slots[slot].identities[0];
        assert i in x.slots[slot].identities && i in y.nodes && y.nodes[i] == slot;
        var z := Insert(y, node, slot);
        assert i in z.nodes && z.nodes[i] == slot && i !in node.identities;
        assert !Mirrored(z);
      } else {
        InsertMirrored(y, node, slot);
      }
    } else {
      InsertMirrored(y, node, slot);
    }
  }

  lemma InsertMirrored(y: Index, node: NodeEntry, slot: SlotId)
    requires Mirrored(y) && (slot in y.slots ==> y.slots[slot].identities == [])
    requires forall i :: i in node.identities ==> i !in y.nodes
    ensures Mirrored(Insert(y, node, slot))
  {
  }

  /** Without the documented default identity the index can be broken: the second entry at slot 5 does
      not displace the first, and identity 2 leads to a group it is not in. */
  lemma UndocumentedEntriesBreakIt()
    ensures var x := Add(Add(Empty, NodeEntry(1, [2]), 5), NodeEntry(1, [3]), 5);
            !Mirrored(x) && GetById(x, 2) == Some(NodeEntry(1, [3]))
  {
    var x := Add(Empty, NodeEntry(1, [2]), 5);
    assert RemoveEach(Empty, [2]) == RemoveEach(Empty, []) by { assert [2][1..] == []; }
    assert x.slots == map[5 := NodeEntry(1, [2])] && x.nodes == map[2 := 5];
    assert RemoveBySlot(x, 5).0 == x && Remove(x, 1).0 == x && Remove(x, 3).0 == x;
    assert [3][1..] == [];
    assert RemoveEach(x, [3]) == RemoveEach(x, []);
    var y := Add(x, NodeEntry(1, [3]), 5);
    assert 2 in y.nodes && y.nodes[2] == 5 && y.slots[5] == NodeEntry(1, [3]);
  }

  /** For documented entries, adding keeps the index mirrored; the survivors are exactly the entries at
      other slots that share no identity with the new one. */
  lemma AddSurvivors(x: Index, node: NodeEntry, slot: SlotId)
    requires Mirrored(x) && Documented(x) && node.defaultId in node.identities
    ensures var y := Add(x, node, slot);
            && Mirrored(y) && Documented(y)
            && (forall k :: k in y.slots <==>
                  || k == slot
                  || (k in x.slots && forall i :: i in node.identities ==> i !in x.slots[k].identities))
            && y.slots[slot] == node
            && (forall k :: k in y.slots && k != slot ==> y.slots[k] == x.slots[k])
  {
    ClearedIs(x, node, slot);
    AddKeepsMirrored(x, node, slot);
    forall k | k in x.slots && k != slot
      ensures k in Displaced(x, node, slot) <==> exists i :: i in node.identities && i in x.slots[k].identities
    {
      DisplacedOthers(x, node, slot, k);
    }
  }

  lemma DisplacedOthers(x: Index, node: NodeEntry, slot: SlotId, k: SlotId)
    requires Mirrored(x) && Documented(x) && node.defaultId in node.identities && k in x.slots && k != slot
    ensures k in Displaced(x, node, slot) <==> exists i :: i in node.identities && i in x.slots[k].identities
  {
    if i :| i in node.identities && i in x.slots[k].identities {
      assert i in x.nodes && x.nodes[i] == k;
    }
  }

  /** Every identity of a stored entry resolves to that entry, and nothing else does. */
  lemma LookupsAgree(x: Index, id: NodeId, entry: NodeEntry)
    requires Mirrored(x)
    ensures GetById(x, id) == Some(entry) ==> id in entry.identities
    ensures forall k :: k in x.slots && id in x.slots[k].identities ==> GetById(x, id) == Some(x.slots[k])
  {
  }

  // ---------------------------------------------------------------- any sequence of operations

  datatype Op = Adding(node: NodeEntry, slot: SlotId) | Removing(id: NodeId) | RemovingSlot(slot: SlotId)

  function Step(x: Index, op: Op): Index {
    match op
    case Adding(node, slot) => Add(x, node, slot)
    case Removing(id) => Remove(x, id).0
    case RemovingSlot(slot) => RemoveBySlot(x, slot).0
  }

  function Run(x: Index, ops: seq<Op>): Index
    decreases |ops|
  {
    if ops == [] then x else Run(Step(x, ops[0]), ops[1..])
  }

  lemma {:induction false} AlwaysMirrored(x: Index, ops: seq<Op>)
    requires Mirrored(x) && Documented(x)
    requires forall k :: 0 <= k < |ops| && ops[k].Adding? ==> ops[k].node.defaultId in ops[k].node.identities
    ensures Mirrored(Run(x, ops)) && Documented(Run(x, ops))
    decreases |ops|
  {
    if ops != [] {
      match ops[0] {
        case Adding(node, slot) => AddSurvivors(x, node, slot);
        case Removing(id) =>
          RemoveIs(x, id);
          WithoutMirrored(x, Hit(x, {id}));
        case RemovingSlot(slot) => RemoveSlotIs(x, slot);
      }
      AlwaysMirrored(Step(x, ops[0]), ops[1..]);
    }
  }

  /** Removing by slot removes that slot's entry and no other. */
  lemma RemoveSlotIs(x: Index, slot: SlotId)
    requires Mirrored(x) && Documented(x)
    ensures RemoveBySlot(x, slot).0 == Without(x, {slot})
    ensures RemoveBySlot(x, slot).1 == if slot in x.slots then Some(x.slots[slot].defaultId) else None
    ensures Mirrored(RemoveBySlot(x, slot).0) && Documented(RemoveBySlot(x, slot).0)
  {
    WithoutMirrored(x, {slot});
    if slot in x.slots {
      RemoveIs(x, x.slots[slot].defaultId);
      assert Hit(x, {x.slots[slot].defaultId}) == {slot};
    } else {
      assert x == Without(x, {slot});
    }
  }
}

/** The index as it is kept in memory: two maps changed entry by entry. */
module DirectSessions {
  import opened Wrappers
  import opened F = ForwardIndexes

  class AllowedForwards {
    var slots: map<SlotId, NodeEntry>
    var nodes: map<NodeId, SlotId>

    constructor ()
      ensures Model() == Empty
    {
      slots := map[];
      nodes := map[];
    }

    ghost function Model(): Index
      reads this
    {
      Index(slots, nodes)
    }

    method RemoveIds(ids: seq<NodeId>)
      modifies this`nodes
      ensures nodes == old(nodes) - AsSet(ids)
    {
      for i := 0 to |ids|
        invariant nodes == old(nodes) - AsSet(ids[..i])
      {
        assert ids[..i + 1] == ids[..i] + [ids[i]];
        nodes := nodes - {ids[i]};
      }
      assert ids[..|ids|] == ids;
    }

    method Remove(id: NodeId) returns (removed: Option<NodeEntry>)
      modifies this
      ensures (Model(), removed) == F.Remove(old(Model()), id)
    {
      if id !in nodes {
        return None;
      }
      var slot := nodes[id];
      nodes := nodes - {id};
      if slot !in slots {
        return None;
      }
      var entry := slots[slot];
      slots := slots - {slot};
      RemoveIds(entry.identities);
      assert nodes == old(nodes) - ({id} + AsSet(entry.identities));
      return Some(entry);
    }

    method RemoveBySlot(slot: SlotId) returns (removed: Option<NodeId>)
      modifies this
      ensures (Model(), removed) == F.RemoveBySlot(old(Model()), slot)
    {
      if slot !in slots {
        return None;
      }
      var id := slots[slot].defaultId;
      var _ := Remove(id);
      return Some(id);
    }

    method RemoveEach(ids: seq<NodeId>)
      modifies this
      ensures Model() == F.RemoveEach(old(Model()), ids)
    {
      for i := 0 to |ids|
        invariant F.RemoveEach(Model(), ids[i..]) == F.RemoveEach(old(Model()), ids)
      {
        assert ids[i..][1..] == ids[i + 1..];
        var _ := Remove(ids[i]);
      }
      assert ids[|ids|..] == [];
    }

    method Add(node: NodeEntry, slot: SlotId)
      modifies this
      ensures Model() == F.Add(old(Model()), node, slot)
    {
      var _ := RemoveBySlot(slot);
      var _ := Remove(node.defaultId);
      RemoveEach(node.identities);
      InsertIds(node.identities, slot);
      slots := slots[slot := node];
    }

    method InsertIds(ids: seq<NodeId>, slot: SlotId)
      modifies this`nodes
      ensures nodes == old(nodes) + map i | i in ids :: slot
    {
      for i := 0 to |ids|
        invariant nodes == old(nodes) + map j | j in ids[..i] :: slot
      {
        assert ids[..i + 1] == ids[..i] + [ids[i]];
        nodes := nodes[ids[i] := slot];
      }
      assert ids[..|ids|] == ids;
    }

    method GetById(id: NodeId) returns (entry: Option<NodeEntry>)
      ensures entry == F.GetById(Model(), id)
    {
      if id in nodes {
        var slot := nodes[id];
        if slot in slots {
          return Some(slots[slot]);
        }
      }
      return None;
    }
  }
}
