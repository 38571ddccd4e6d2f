/** The inductive invariant of the session lifecycle protocol: it holds initially and every
    operation of every task keeps it. */
module ProtocolInvariant {
  import opened Wrappers
  import opened SessionStates
  import opened Registries
  import opened RoutingTables
  import opened Drivers
  import opened Protocol

  // ---------------------------------------------------------------- the parts

  /** The shape of a permit taken for a reverse connection. */
  predicate ReversePhaseOk(phase: Phase) {
    match phase
    case Driving(Accepting(next)) => next != ConnectIntent
    case Driving(pc) => pc.Done?
    case Dropping(step, _) => step == Check || step == FinishReverse
    case Dropped => true
  }

  /** A permit names an issued generation. While that generation is current, an ordinary permit is
      the one recorded for the view and its progress agrees with the state unless the view is being
      closed; a reverse permit has a live ordinary permit beside it that has begun its reverse attempt. */
  predicate PermitOk(r: Registry, permits: map<Id, Permit>, holder: map<Ref, Id>, me: Id)
    requires me in permits
  {
    var p := permits[me];
    var c := p.snap.cell;
    && c in r.cells
    && p.snap.gen <= r.cells[c].epoch
    && (p.kind.AcceptReverse? ==> ReversePhaseOk(p.phase))
    && (Current(r, p.snap) ==>
          && c in holder
          && if p.kind.AcceptReverse? then
               && holder[c] in permits
               && permits[holder[c]].snap == p.snap
               && permits[holder[c]].kind.Resolve?
               && ReverseBegun(permits[holder[c]].phase)
             else
               && holder[c] == me
               && (r.cells[c].state.Closing? ||
                   (&& AgreePhase(p.kind, p.phase, r.cells[c].state)
                    && AwaitOk(p.phase, r.cells[c].state, r.cells[c].log))))
  }

  /** A live view that is neither closed nor closing belongs to the permit of its generation. */
  predicate HeldOk(r: Registry, permits: map<Id, Permit>, holder: map<Ref, Id>, c: Ref)
    requires c in r.cells
  {
    var cell := r.cells[c];
    !cell.retired && !cell.state.Closed? && !cell.state.Closing? ==>
      && c in holder && holder[c] in permits
      && !permits[holder[c]].kind.AcceptReverse?
      && permits[holder[c]].snap == Snap(c, cell.epoch)
  }

  predicate UniqueGenerations(permits: map<Id, Permit>) {
    forall p, q :: p in permits && q in permits && p != q
                   && !permits[p].kind.AcceptReverse? && !permits[q].kind.AcceptReverse?
                   ==> permits[p].snap.gen != permits[q].snap.gen
  }

  /** A waiter has not yet seen anything that ends its wait, and once its queue is empty there is
      nothing it could have missed. */
  predicate WaiterOk(r: Registry, x: Waiter) {
    && x.snap.cell in r.cells
    && var cell := r.cells[x.snap.cell];
    && x.start <= x.cursor <= |cell.log|
    && (x.phase.Fresh? ==> x.cursor == x.start)
    && (x.phase.Waiting? ==>
          && (forall i :: x.start <= i < x.cursor ==> !Ends(x.what, cell.log[i]))
          && (x.cursor == |cell.log| ==> Current(r, x.snap) && !Ends(x.what, cell.state)))
  }

  predicate OwesSession(r: Registry, session: Session, c: Ref)
    requires c in r.cells
  {
    && session.generation == r.cells[c].epoch
    && session.defaultId in r.byId && r.byId[session.defaultId].cell == c
  }

  /** The closing task will retire the present generation of `c`. */
  predicate Owes(r: Registry, k: Closer, c: Ref)
    requires c in r.cells
  {
    match k
    case Unregistering(s) => s == Snap(c, r.cells[c].epoch)
    case Collecting(session) => OwesSession(r, session, c)
    case Retiring(session, owners) =>
      OwesSession(r, session, c) && (session.defaultId, session.generation) in owners
    case RetiringOne(session, s, owners) =>
      || s == Snap(c, r.cells[c].epoch)
      || (OwesSession(r, session, c) && (session.defaultId, session.generation) in owners)
    case _ => false
  }

  predicate ClosingOk(r: Registry, closers: map<Id, Closer>, closing: map<Ref, Id>, c: Ref)
    requires c in r.cells
  {
    !r.cells[c].retired && r.cells[c].state.Closing? ==>
      c in closing && closing[c] in closers && Owes(r, closers[closing[c]], c)
  }

  predicate CloserOk(r: Registry, k: Closer) {
    k.ClosingOwner? ==>
      && k.snap.cell in r.cells
      && k.snap.gen == k.session.generation
      && (Live(r, k.snap.cell) ==>
            k.session.defaultId in r.byId && r.byId[k.session.defaultId].cell == k.snap.cell)
  }

  ghost predicate PermitsOk(r: Registry, permits: map<Id, Permit>, holder: map<Ref, Id>) {
    && (forall p :: p in permits ==> PermitOk(r, permits, holder, p))
    && (forall c :: c in r.cells ==> HeldOk(r, permits, holder, c))
    && UniqueGenerations(permits)
  }

  ghost predicate WaitersOk(r: Registry, waiters: map<Id, Waiter>) {
    forall x :: x in waiters ==> WaiterOk(r, waiters[x])
  }

  ghost predicate ClosersOk(r: Registry, closers: map<Id, Closer>, closing: map<Ref, Id>) {
    && (forall k :: k in closers ==> CloserOk(r, closers[k]))
    && (forall c :: c in r.cells ==> ClosingOk(r, closers, closing, c))
  }

  /** The tables hold only objects that were created and published. */
  ghost predicate TablesOk(t: Tables, created: map<Ref, Session>, published: set<Ref>) {
    && (forall k :: k in t.sessions ==> Known(created, t.sessions[k]))
    && (forall k :: k in t.p2pNodes ==> Known(created, t.p2pNodes[k]))
    && (forall k :: k in t.nodes ==> Known(created, t.nodes[k].route) && t.nodes[k].ref in published)
  }

  ghost predicate Inv(w: World) {
    && RegistryOk(w.reg)
    && PermitsOk(w.reg, w.permits, w.holder)
    && WaitersOk(w.reg, w.waiters)
    && ClosersOk(w.reg, w.closers, w.closing)
    && TablesOk(w.tab, w.created, w.published)
  }

  // ---------------------------------------------------------------- growth of the registry

  /** The registry may have gained views and aliases and new metadata; no lifecycle changed. */
  ghost predicate Grew(r: Registry, r': Registry) {
    && (forall c :: c in r.cells ==> c in r'.cells && SameLife(r.cells[c], r'.cells[c]))
    && r.nextGen <= r'.nextGen
    && (forall c :: c in r'.cells && c !in r.cells ==> r'.cells[c].state.Closed? && r'.cells[c].epoch >= r.nextGen)
    && (forall k :: k in r.byId ==> k in r'.byId && r'.byId[k].cell == r.byId[k].cell)
  }

  lemma GrewPermit(r: Registry, r': Registry, permits: map<Id, Permit>, holder: map<Ref, Id>, p: Id)
    requires p in permits && PermitOk(r, permits, holder, p)
    requires permits[p].snap.cell in r'.cells
    requires SameLife(r.cells[permits[p].snap.cell], r'.cells[permits[p].snap.cell])
    ensures PermitOk(r', permits, holder, p)
  {
  }

  lemma GrewPermits(r: Registry, r': Registry, permits: map<Id, Permit>, holder: map<Ref, Id>)
    requires PermitsOk(r, permits, holder) && Grew(r, r')
    ensures PermitsOk(r', permits, holder)
  {
    forall p | p in permits ensures PermitOk(r', permits, holder, p) {
      assert PermitOk(r, permits, holder, p);
      GrewPermit(r, r', permits, holder, p);
    }
    forall c | c in r'.cells ensures HeldOk(r', permits, holder, c) {
      assert c in r.cells ==> HeldOk(r, permits, holder, c);
    }
  }

  lemma GrewWaiters(r: Registry, r': Registry, waiters: map<Id, Waiter>)
    requires WaitersOk(r, waiters) && Grew(r, r')
    ensures WaitersOk(r', waiters)
  {
    forall x | x in waiters ensures WaiterOk(r', waiters[x]) {
      assert WaiterOk(r, waiters[x]);
    }
  }

  lemma GrewClosers(r: Registry, r': Registry, closers: map<Id, Closer>, closing: map<Ref, Id>)
    requires ClosersOk(r, closers, closing) && Grew(r, r')
    ensures ClosersOk(r', closers, closing)
  {
    forall k | k in closers ensures CloserOk(r', closers[k]) {
      assert CloserOk(r, closers[k]);
    }
    forall c | c in r'.cells ensures ClosingOk(r', closers, closing, c) {
      assert c in r.cells ==> ClosingOk(r, closers, closing, c);
    }
  }

  lemma GrewKeeps(w: World, r': Registry)
    requires Inv(w) && RegistryOk(r') && Grew(w.reg, r')
    ensures Inv(w.(reg := r'))
  {
    GrewPermits(w.reg, r', w.permits, w.holder);
    GrewWaiters(w.reg, r', w.waiters);
    GrewClosers(w.reg, r', w.closers, w.closing);
  }

  lemma PointGrew(r: Registry, v: View, ids: seq<NodeId>, addrs: seq<Addr>)
    requires forall i :: i in ids && i in r.byId ==> r.byId[i].cell == v.cell
    ensures Grew(r, Point(r, v, ids, addrs))
  {
  }

  lemma AddCellGrew(r: Registry, c: Ref, id: NodeId, info: NodeInfo)
    requires c !in r.cells
    ensures Grew(r, AddCell(r, c, id, info))
  {
  }

  lemma ApplyInfoGrew(r: Registry, c: Ref, info: NodeInfo)
    requires c in r.cells
    ensures Grew(r, ApplyInfo(r, c, info))
  {
  }

  lemma GrewTransitive(a: Registry, b: Registry, c: Registry)
    requires Grew(a, b) && Grew(b, c)
    ensures Grew(a, c)
  {
  }

  lemma GuardGrew(r: Registry, id: NodeId, addrs: seq<Addr>, c: Ref)
    requires c !in r.cells
    ensures Grew(r, Guard(r, id, addrs, c).0)
  {
    if Find(r, id, addrs).None? {
      var r1 := AddCell(r, c, id, NodeInfo([], addrs, 0));
      AddCellGrew(r, c, id, NodeInfo([], addrs, 0));
      PointGrew(r1, View(c, None), [id], addrs);
      GrewTransitive(r, r1, Point(r1, View(c, None), [id], addrs));
    }
  }

  lemma EnlistGrew(r: Registry, v: View, info: NodeInfo)
    requires forall i :: i in info.identities && i in r.byId ==> r.byId[i].cell == v.cell
    ensures Grew(r, Enlist(r, v, info))
  {
    var r1 := Point(r, v, info.identities, info.endpoints);
    PointGrew(r, v, info.identities, info.endpoints);
    if v.cell in r.cells {
      ApplyInfoGrew(r1, v.cell, info);
      GrewTransitive(r, r1, ApplyInfo(r1, v.cell, info));
    }
  }

  lemma UpdateGrew(r: Registry, info: NodeInfo, c: Ref)
    requires c !in r.cells
    ensures Grew(r, Update(r, info, c).0)
  {
    FirstByIdIn(r.byId, info.identities);
    if Update(r, info, c).1 {
      match FirstById(r.byId, info.identities) {
        case Some(v) => EnlistGrew(r, v, info);
        case None =>
          var first := NodeInfo([], info.endpoints, info.details);
          var r1 := AddCell(r, c, info.identities[0], first);
          AddCellGrew(r, c, info.identities[0], first);
          EnlistGrew(r1, View(c, None), info);
          GrewTransitive(r, r1, Enlist(r1, View(c, None), info));
      }
    }
  }

  lemma CommitGrew(r: Registry, s: Snap, info: NodeInfo)
    requires CommitAllowed(r, s, info)
    ensures Grew(r, Commit(r, s, info))
  {
    var v := View(s.cell, None);
    var r1 := Point(r, v, info.identities, info.endpoints);
    PointGrew(r, v, info.identities, info.endpoints);
    ApplyInfoGrew(r1, s.cell, info);
    GrewTransitive(r, r1, ApplyInfo(r1, s.cell, info));
  }

  lemma MetadataGrew(r: Registry, c: Ref, cell: Cell)
    requires c in r.cells && SameLife(r.cells[c], cell)
    ensures Grew(r, r.(cells := r.cells[c := cell]))
  {
  }

  lemma ForgetKeeps(w: World, s: Snap)
    requires Inv(w)
    ensures Inv(w.(reg := ForgetHandles(w.reg, s)))
  {
    if Current(w.reg, s) {
      var cell := w.reg.cells[s.cell].(handles := []);
      MetadataOk(w.reg, s.cell, cell);
      MetadataGrew(w.reg, s.cell, cell);
      GrewKeeps(w, ForgetHandles(w.reg, s));
    }
  }

  lemma RegisterHandleKeeps(w: World, s: Snap, h: nat)
    requires Inv(w) && s.cell in w.reg.cells
    ensures Inv(w.(reg := RegisterHandle(w.reg, s, h).0))
  {
    var cell := w.reg.cells[s.cell].(handles := w.reg.cells[s.cell].handles + [h]);
    MetadataGrew(w.reg, s.cell, cell);
    if RegisterHandle(w.reg, s, h).1 == [] {
      MetadataOk(w.reg, s.cell, cell);
      GrewKeeps(w, RegisterHandle(w.reg, s, h).0);
    }
  }

  // ---------------------------------------------------------------- announcements

  /** Exactly one announcement was added to `c`, saying `s`; no other view changed. */
  predicate Announced(r: Registry, r': Registry, c: Ref, s: SessionState) {
    && c in r.cells && r'.cells.Keys == r.cells.Keys
    && (forall d :: d in r.cells && d != c ==> r'.cells[d] == r.cells[d])
    && r'.cells[c].log == r.cells[c].log + [s]
  }

  lemma AnnouncedWaiters(r: Registry, r': Registry, waiters: map<Id, Waiter>, c: Ref, s: SessionState)
    requires WaitersOk(r, waiters) && Announced(r, r', c, s)
    ensures WaitersOk(r', waiters)
  {
    forall x | x in waiters ensures WaiterOk(r', waiters[x]) {
      assert WaiterOk(r, waiters[x]);
    }
  }

  lemma SetStateWaiters(r: Registry, c: Ref, s: SessionState, waiters: map<Id, Waiter>)
    requires WaitersOk(r, waiters) && c in r.cells
    ensures WaitersOk(SetState(r, c, s), waiters)
  {
    AnnouncedWaiters(r, SetState(r, c, s), waiters, c, s);
  }

  /** A transition to anything but `Closing` creates no closing obligation and breaks none. */
  lemma SetStateClosers(r: Registry, c: Ref, s: SessionState, closers: map<Id, Closer>, closing: map<Ref, Id>)
    requires ClosersOk(r, closers, closing) && c in r.cells && !s.Closing?
    ensures ClosersOk(SetState(r, c, s), closers, closing)
  {
    var r' := SetState(r, c, s);
    forall k | k in closers ensures CloserOk(r', closers[k]) {
      assert CloserOk(r, closers[k]);
    }
    forall d | d in r'.cells ensures ClosingOk(r', closers, closing, d) {
      assert ClosingOk(r, closers, closing, d);
    }
  }

  // ---------------------------------------------------------------- moving permits

  function WithPhase(permits: map<Id, Permit>, me: Id, phase: Phase): map<Id, Permit>
    requires me in permits
  {
    permits[me := permits[me].(phase := phase)]
  }

  /** Moving one permit does not disturb the others. */
  lemma OtherPermit(r: Registry, permits: map<Id, Permit>, holder: map<Ref, Id>, me: Id, phase: Phase, p: Id)
    requires me in permits && p in permits && p != me
    requires PermitOk(r, permits, holder, p)
    requires ReverseBegun(permits[me].phase) ==> ReverseBegun(phase)
    ensures PermitOk(r, WithPhase(permits, me, phase), holder, p)
  {
  }

  /** A new state of `c` concerns only the ordinary permit of the current generation of `c`. */
  lemma SetStatePermit(r: Registry, c: Ref, s: SessionState, permits: map<Id, Permit>, holder: map<Ref, Id>, p: Id)
    requires c in r.cells && p in permits && PermitOk(r, permits, holder, p)
    requires !permits[p].kind.AcceptReverse? && Current(r, permits[p].snap) && permits[p].snap.cell == c ==>
               s.Closing? || (AgreePhase(permits[p].kind, permits[p].phase, s)
                              && AwaitOk(permits[p].phase, s, r.cells[c].log + [s]))
    ensures PermitOk(SetState(r, c, s), permits, holder, p)
  {
  }

  lemma PhaseHeld(r: Registry, permits: map<Id, Permit>, holder: map<Ref, Id>, me: Id, phase: Phase)
    requires PermitsOk(r, permits, holder) && me in permits
    ensures forall c :: c in r.cells ==> HeldOk(r, WithPhase(permits, me, phase), holder, c)
    ensures UniqueGenerations(WithPhase(permits, me, phase))
  {
    forall c | c in r.cells ensures HeldOk(r, WithPhase(permits, me, phase), holder, c) {
      assert HeldOk(r, permits, holder, c);
    }
  }

  /** A permit moves without touching the state. */
  lemma PhaseKeeps(w: World, me: Id, phase: Phase)
    requires Inv(w) && me in w.permits
    requires ReverseBegun(w.permits[me].phase) ==> ReverseBegun(phase)
    requires PermitOk(w.reg, WithPhase(w.permits, me, phase), w.holder, me)
    ensures Inv(SetPhase(w, me, phase))
  {
    var permits := WithPhase(w.permits, me, phase);
    forall p | p in permits ensures PermitOk(w.reg, permits, w.holder, p) {
      assert PermitOk(w.reg, w.permits, w.holder, p);
      if p != me {
        OtherPermit(w.reg, w.permits, w.holder, me, phase, p);
      }
    }
    PhaseHeld(w.reg, w.permits, w.holder, me, phase);
  }

  /** A live view that is already held stays held under any new state. */
  lemma SetStateHeld(r: Registry, c: Ref, s: SessionState, permits: map<Id, Permit>, holder: map<Ref, Id>)
    requires forall d :: d in r.cells ==> HeldOk(r, permits, holder, d)
    requires c in r.cells && (r.cells[c].state.Busy() || s.Closing?)
    ensures forall d :: d in r.cells ==> HeldOk(SetState(r, c, s), permits, holder, d)
  {
    forall d | d in r.cells ensures HeldOk(SetState(r, c, s), permits, holder, d) {
      assert HeldOk(r, permits, holder, d);
    }
  }

  /** The permits after `me` has moved its own view to `s`. */
  lemma MovePermits(r: Registry, permits: map<Id, Permit>, holder: map<Ref, Id>, me: Id, phase: Phase, s: SessionState)
    requires PermitsOk(r, permits, holder) && me in permits
    requires permits[me].snap.cell in r.cells && r.cells[permits[me].snap.cell].state.Busy()
    requires ReverseBegun(permits[me].phase) ==> ReverseBegun(phase)
    requires PermitOk(SetState(r, permits[me].snap.cell, s), WithPhase(permits, me, phase), holder, me)
    requires forall p :: p in permits && p != me && !permits[p].kind.AcceptReverse?
                         && Current(r, permits[p].snap) && permits[p].snap.cell == permits[me].snap.cell ==>
                         && AgreePhase(permits[p].kind, permits[p].phase, s)
                         && AwaitOk(permits[p].phase, s, r.cells[permits[me].snap.cell].log + [s])
    ensures PermitsOk(SetState(r, permits[me].snap.cell, s), WithPhase(permits, me, phase), holder)
  {
    var c := permits[me].snap.cell;
    var permits' := WithPhase(permits, me, phase);
    forall p | p in permits' ensures PermitOk(SetState(r, c, s), permits', holder, p) {
      assert PermitOk(r, permits, holder, p);
      if p != me {
        OtherPermit(r, permits, holder, me, phase, p);
        SetStatePermit(r, c, s, permits', holder, p);
      }
    }
    PhaseHeld(r, permits, holder, me, phase);
    SetStateHeld(r, c, s, permits', holder);
  }

  lemma MoveKeeps(w: World, me: Id, phase: Phase, s: SessionState)
    requires Inv(w) && me in w.permits
    requires Current(w.reg, w.permits[me].snap)
    requires w.reg.cells[w.permits[me].snap.cell].state.Allowed(s) && !s.Closing?
    requires PermitsOk(SetState(w.reg, w.permits[me].snap.cell, s), WithPhase(w.permits, me, phase), w.holder)
    ensures Inv(SetPhase(w, me, phase).(reg := SetState(w.reg, w.permits[me].snap.cell, s)))
  {
    var c := w.permits[me].snap.cell;
    SetStateOk(w.reg, c, s);
    SetStateWaiters(w.reg, c, s, w.waiters);
    SetStateClosers(w.reg, c, s, w.closers, w.closing);
  }

  /** The ordinary permit of a current generation moves the state by the table. */
  lemma HolderKeeps(w: World, me: Id, phase: Phase, s: SessionState)
    requires Inv(w) && me in w.permits
    requires var p := w.permits[me];
             && !p.kind.AcceptReverse? && Current(w.reg, p.snap)
             && var cell := w.reg.cells[p.snap.cell];
             && cell.state.Busy() && cell.state.Allowed(s) && !s.Closing?
             && (ReverseBegun(p.phase) ==> ReverseBegun(phase))
             && AgreePhase(p.kind, phase, s) && AwaitOk(phase, s, cell.log + [s])
    ensures Inv(SetPhase(w, me, phase).(reg := SetState(w.reg, w.permits[me].snap.cell, s)))
  {
    var c := w.permits[me].snap.cell;
    assert PermitOk(w.reg, w.permits, w.holder, me);
    forall p | p in w.permits && p != me && !w.permits[p].kind.AcceptReverse?
               && Current(w.reg, w.permits[p].snap) ensures w.permits[p].snap.cell != c {
      assert PermitOk(w.reg, w.permits, w.holder, p);
    }
    MovePermits(w.reg, w.permits, w.holder, me, phase, s);
    MoveKeeps(w, me, phase, s);
  }

  /** A reverse permit moves the state only inside the reverse handshake, which its partner allows. */
  lemma ReverseKeeps(w: World, me: Id, phase: Phase, s: SessionState)
    requires Inv(w) && me in w.permits
    requires var p := w.permits[me];
             && p.kind.AcceptReverse? && Current(w.reg, p.snap) && ReversePhaseOk(phase)
             && (ReverseBegun(p.phase) ==> ReverseBegun(phase))
             && var cell := w.reg.cells[p.snap.cell];
             && cell.state.ReverseConnection? && s.ReverseConnection? && cell.state.Allowed(s)
    ensures Inv(SetPhase(w, me, phase).(reg := SetState(w.reg, w.permits[me].snap.cell, s)))
  {
    var c := w.permits[me].snap.cell;
    var cell := w.reg.cells[c];
    assert PermitOk(w.reg, w.permits, w.holder, me);
    forall p | p in w.permits && p != me && !w.permits[p].kind.AcceptReverse?
               && Current(w.reg, w.permits[p].snap) && w.permits[p].snap.cell == c
      ensures AgreePhase(w.permits[p].kind, w.permits[p].phase, s)
      ensures AwaitOk(w.permits[p].phase, s, cell.log + [s])
    {
      assert PermitOk(w.reg, w.permits, w.holder, p);
      ReverseStepAgrees(w.permits[p].kind, w.permits[p].phase, cell.state, s, cell.log);
    }
    MovePermits(w.reg, w.permits, w.holder, me, phase, s);
    MoveKeeps(w, me, phase, s);
  }
}
