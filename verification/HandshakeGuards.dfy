/**
 The resources a handshake holds while it runs: an admission, an incoming slot with its abort handle,
 and a lease on a temporary session. Each is returned by a guard that is dropped at some arbitrary
 later time, possibly after a shutdown or after somebody else has taken the same address.

 `Guards` is the shared state together with the guards that are alive; its operations are the locked
 regions of the session initializer, and a run is any sequence of them.
 */
module HandshakeGuards {
  import opened Wrappers

  type Addr = nat
  type SessionId = nat
  type Handle = nat

  const MAX_INCOMING_HANDSHAKES := 256
  const MAX_U64 := 0xFFFF_FFFF_FFFF_FFFF

  datatype Admission = Admission(remote: Addr, token: nat)

  /** A temporary session object; `ref` is its identity. */
  datatype RawSession = RawSession(ref: nat, remote: Addr)

  datatype TemporarySession = TemporarySession(raw: RawSession, users: nat)

  /** The guards that have not been dropped yet, and the objects a shutdown has disowned. */
  datatype Live = Live(
    admissions: set<Admission>,
    slots: set<SessionId>,
    leases: multiset<RawSession>,
    disownedSlots: set<SessionId>,
    disowned: set<RawSession>)

  datatype Guards = Guards(
    admitted: map<Addr, nat>,
    nextAdmission: nat,
    incoming: map<SessionId, Addr>,
    handles: map<SessionId, Handle>,
    tmp: map<Addr, TemporarySession>,
    live: Live)

  const Init := Guards(map[], 0, map[], map[], map[], Live({}, {}, multiset{}, {}, {}))

  // ---------------------------------------------------------------- operations

  function Admit(g: Guards, remote: Addr): (Guards, Option<Admission>) {
    if remote in g.admitted || |g.admitted| >= MAX_INCOMING_HANDSHAKES || g.nextAdmission >= MAX_U64 then (g, None)
    else
      var token := g.nextAdmission + 1;
      var a := Admission(remote, token);
      (g.(nextAdmission := token, admitted := g.admitted[remote := token],
          live := g.live.(admissions := g.live.admissions + {a})), Some(a))
  }

  function DropAdmission(g: Guards, a: Admission): Guards {
    g.(admitted := if a.remote in g.admitted && g.admitted[a.remote] == a.token
                   then g.admitted - {a.remote} else g.admitted,
       live := g.live.(admissions := g.live.admissions - {a}))
  }

  function OpenSlot(g: Guards, id: SessionId, remote: Addr, handle: Handle): (Guards, bool) {
    if |g.incoming| >= MAX_INCOMING_HANDSHAKES || remote in g.incoming.Values then (g, false)
    else (g.(incoming := g.incoming[id := remote], handles := g.handles[id := handle],
             live := g.live.(slots := g.live.slots + {id})), true)
  }

  function DropSlot(g: Guards, id: SessionId): Guards {
    g.(incoming := g.incoming - {id}, handles := g.handles - {id},
       live := g.live.(slots := g.live.slots - {id}))
  }

  /** Lease the temporary session of an address; `ref` is the new object if there is none yet. */
  function Lease(g: Guards, addr: Addr, ref: nat): (Guards, RawSession) {
    var entry := if addr in g.tmp then g.tmp[addr] else TemporarySession(RawSession(ref, addr), 0);
    (g.(tmp := g.tmp[addr := entry.(users := entry.users + 1)],
        live := g.live.(leases := g.live.leases + multiset{entry.raw})), entry.raw)
  }

  function DropLease(g: Guards, s: RawSession): Guards {
    g.(tmp := Released(g.tmp, s), live := g.live.(leases := g.live.leases - multiset{s}))
  }

  /** One user less. The count of an object that still has a user cannot underflow; the value in that
      case does not matter. */
  function Released(tmp: map<Addr, TemporarySession>, s: RawSession): map<Addr, TemporarySession> {
    if s.remote !in tmp || tmp[s.remote].raw != s then tmp
    else if tmp[s.remote].users <= 1 then tmp - {s.remote}
    else tmp[s.remote := tmp[s.remote].(users := tmp[s.remote].users - 1)]
  }

  function Shutdown(g: Guards): (Guards, set<Handle>) {
    (g.(incoming := map[], handles := map[], tmp := map[],
        live := g.live.(disownedSlots := g.live.slots,
                        disowned := g.live.disowned + set a | a in g.tmp :: g.tmp[a].raw)),
     g.handles.Values)
  }

  datatype Op =
    | Admitting(remote: Addr)
    | DroppingAdmission(admission: Admission)
    | OpeningSlot(id: SessionId, remote: Addr, handle: Handle)
    | DroppingSlot(id: SessionId)
    | Leasing(remote: Addr, ref: nat)
    | DroppingLease(session: RawSession)
    | ShuttingDown

  /** Guards are dropped once; identifiers and objects are new when they are created. */
  predicate Enabled(g: Guards, op: Op) {
    match op
    case DroppingAdmission(a) => a in g.live.admissions
    case OpeningSlot(id, _, _) => id !in g.live.slots && id !in g.live.disownedSlots
    case DroppingSlot(id) => id in g.live.slots
    case Leasing(addr, ref) =>
      && RawSession(ref, addr) !in g.live.leases && RawSession(ref, addr) !in g.live.disowned
    case DroppingLease(s) => s in g.live.leases
    case _ => true
  }

  function Step(g: Guards, op: Op): Guards
    requires Enabled(g, op)
  {
    match op
    case Admitting(remote) => Admit(g, remote).0
    case DroppingAdmission(a) => DropAdmission(g, a)
    case OpeningSlot(id, remote, handle) => OpenSlot(g, id, remote, handle).0
    case DroppingSlot(id) => DropSlot(g, id)
    case Leasing(addr, ref) => Lease(g, addr, ref).0
    case DroppingLease(s) => DropLease(g, s)
    case ShuttingDown => Shutdown(g).0
  }

  predicate IsRun(g: Guards, ops: seq<Op>)
    decreases |ops|
  {
    ops == [] || (Enabled(g, ops[0]) && IsRun(Step(g, ops[0]), ops[1..]))
  }

  function Run(g: Guards, ops: seq<Op>): Guards
    requires IsRun(g, ops)
    decreases |ops|
  {
    if ops == [] then g else Run(Step(g, ops[0]), ops[1..])
  }

  // ---------------------------------------------------------------- the invariant

  /** The table of admissions is exactly the set of live ones, at most 256, and tokens are not reused. */
  ghost predicate AdmissionsOk(g: Guards) {
    && |g.admitted| <= MAX_INCOMING_HANDSHAKES
    && g.nextAdmission <= MAX_U64
    && (forall a :: a in g.live.admissions <==> a.remote in g.admitted && g.admitted[a.remote] == a.token)
    && (forall r :: r in g.admitted ==> g.admitted[r] <= g.nextAdmission)
  }

  /** At most 256 slots, one per address, each with an abort handle and a live guard; a live guard
      without a slot was disowned by a shutdown. */
  ghost predicate SlotsOk(g: Guards) {
    && |g.incoming| <= MAX_INCOMING_HANDSHAKES
    && g.incoming.Keys == g.handles.Keys
    && (forall i, j :: i in g.incoming && j in g.incoming && g.incoming[i] == g.incoming[j] ==> i == j)
    && (forall i :: i in g.incoming ==> i in g.live.slots && i !in g.live.disownedSlots)
    && (forall i :: i in g.live.slots ==> i in g.incoming || i in g.live.disownedSlots)
  }

  /** Every temporary session counts the live leases on that same object, of which there is one; a
      live lease whose object is not in the table was disowned by a shutdown. */
  ghost predicate LeasesOk(g: Guards) {
    && (forall a :: a in g.tmp ==>
          && g.tmp[a].raw.remote == a
          && g.tmp[a].users == g.live.leases[g.tmp[a].raw]
          && g.tmp[a].users >= 1
          && g.tmp[a].raw !in g.live.disowned)
    && (forall s :: s in g.live.leases ==>
          (s.remote in g.tmp && g.tmp[s.remote].raw == s) || s in g.live.disowned)
  }

  ghost predicate Inv(g: Guards) {
    AdmissionsOk(g) && SlotsOk(g) && LeasesOk(g)
  }

  lemma AdmissionsKept(g: Guards, op: Op)
    requires Enabled(g, op) && AdmissionsOk(g)
    ensures AdmissionsOk(Step(g, op))
  {
    match op {
      case Admitting(remote) => AdmitKept(g, remote);
      case DroppingAdmission(a) => DropAdmissionKept(g, a);
      case _ =>
    }
  }

  lemma AdmitKept(g: Guards, remote: Addr)
    requires AdmissionsOk(g)
    ensures AdmissionsOk(Admit(g, remote).0)
  {
  }

  lemma DropAdmissionKept(g: Guards, a: Admission)
    requires AdmissionsOk(g) && a in g.live.admissions
    ensures AdmissionsOk(DropAdmission(g, a))
  {
    CardinalityOfDifference(g.admitted, a.remote);
    var g' := DropAdmission(g, a);
    forall x ensures x in g'.live.admissions <==> x.remote in g'.admitted && g'.admitted[x.remote] == x.token {
      assert x in g.live.admissions <==> x.remote in g.admitted && g.admitted[x.remote] == x.token;
    }
  }

  lemma CardinalityOfDifference<K, V>(m: map<K, V>, k: K)
    ensures |m - {k}| <= |m|
  {
    var n := m - {k};
    assert n.Keys == m.Keys - {k};
    assert |n.Keys| <= |m.Keys|;
    assert |n| == |n.Keys| && |m| == |m.Keys|;
  }

  lemma SlotsKept(g: Guards, op: Op)
    requires Enabled(g, op) && SlotsOk(g)
    ensures SlotsOk(Step(g, op))
  {
    match op {
      case DroppingSlot(id) => CardinalityOfDifference(g.incoming, id);
      case OpeningSlot(id, remote, handle) =>
        var g' := Step(g, op);
        if OpenSlot(g, id, remote, handle).1 {
          forall i | i in g.incoming ensures g.incoming[i] != remote {
            assert g.incoming[i] in g.incoming.Values;
          }
        }
      case _ =>
    }
  }

  lemma LeasesKept(g: Guards, op: Op)
    requires Enabled(g, op) && LeasesOk(g)
    ensures LeasesOk(Step(g, op))
  {
    match op {
      case Leasing(addr, ref) => LeaseKept(g, addr, ref);
      case DroppingLease(s) => DropLeaseKept(g, s);
      case _ =>
    }
  }

  lemma LeaseKept(g: Guards, addr: Addr, ref: nat)
    requires Enabled(g, Leasing(addr, ref)) && LeasesOk(g)
    ensures LeasesOk(Lease(g, addr, ref).0)
  {
  }

  lemma DropLeaseKept(g: Guards, s: RawSession)
    requires s in g.live.leases && LeasesOk(g)
    ensures LeasesOk(DropLease(g, s))
  {
  }

  /** The books are right in every reachable state: whatever is admitted, opened, leased, dropped and
      shut down in whatever order. */
  lemma {:induction false} RunKeeps(g: Guards, ops: seq<Op>)
    requires Inv(g) && IsRun(g, ops)
    ensures Inv(Run(g, ops))
    decreases |ops|
  {
    if ops != [] {
      AdmissionsKept(g, ops[0]);
      SlotsKept(g, ops[0]);
      LeasesKept(g, ops[0]);
      RunKeeps(Step(g, ops[0]), ops[1..]);
    }
  }

  lemma ReachableBooks(ops: seq<Op>)
    requires IsRun(Init, ops)
    ensures Inv(Run(Init, ops))
  {
    RunKeeps(Init, ops);
  }

  // ---------------------------------------------------------------- who is let in

  function AdmissionsOf(admitted: map<Addr, nat>): set<Admission> {
    set r | r in admitted :: Admission(r, admitted[r])
  }

  lemma {:induction false} CountAdmissions(admitted: map<Addr, nat>)
    ensures |AdmissionsOf(admitted)| == |admitted|
    decreases |admitted|
  {
    if admitted != map[] {
      var r :| r in admitted;
      var rest := admitted - {r};
      assert rest.Keys == admitted.Keys - {r} && |rest| == |rest.Keys| && |admitted| == |admitted.Keys|;
      CountAdmissions(rest);
      assert AdmissionsOf(admitted) == AdmissionsOf(rest) + {Admission(r, admitted[r])};
    } else {
      assert AdmissionsOf(admitted) == {};
    }
  }

  /** A handshake is admitted exactly if none is admitted for its address, fewer than 256 are admitted, and the
      tokens are not used up. It is admitted with a token nobody else has; nobody else is affected. */
  lemma AdmittedIffRoom(ops: seq<Op>, remote: Addr)
    requires IsRun(Init, ops)
    ensures var g := Run(Init, ops); var (g', a) := Admit(g, remote);
            && (a.Some? <==>
                  && (forall b :: b in g.live.admissions ==> b.remote != remote)
                  && |g.live.admissions| < 256 && g.nextAdmission < MAX_U64)
            && (a.Some? ==>
                  && a.value.remote == remote && g'.live.admissions == g.live.admissions + {a.value}
                  && forall b :: b in g.live.admissions ==> b.token != a.value.token)
            && (a.None? ==> g' == g)
            && g'.incoming == g.incoming && g'.handles == g.handles && g'.tmp == g.tmp
  {
    ReachableBooks(ops);
    var g := Run(Init, ops);
    CountAdmissions(g.admitted);
    assert AdmissionsOf(g.admitted) == g.live.admissions;
    if remote in g.admitted {
      assert Admission(remote, g.admitted[remote]) in g.live.admissions;
    }
  }

  /** A slot is opened exactly if fewer than 256 are open and none is open for the address; it gets its handle,
      and no other slot is affected. */
  lemma OpenedIffRoom(ops: seq<Op>, id: SessionId, remote: Addr, handle: Handle)
    requires IsRun(Init, ops) && Enabled(Run(Init, ops), OpeningSlot(id, remote, handle))
    ensures var g := Run(Init, ops); var (g', ok) := OpenSlot(g, id, remote, handle);
            && (ok <==> |g.incoming| < 256 && forall i :: i in g.incoming ==> g.incoming[i] != remote)
            && (ok ==> id in g'.incoming && g'.incoming[id] == remote && id in g'.handles && g'.handles[id] == handle)
            && (!ok ==> g' == g)
            && (forall i :: i != id ==>
                  (i in g'.incoming <==> i in g.incoming) && (i in g'.handles <==> i in g.handles))
            && (forall i :: i != id && i in g.incoming && i in g.handles ==>
                  g'.incoming[i] == g.incoming[i] && g'.handles[i] == g.handles[i])
  {
    var g := Run(Init, ops);
    assert remote in g.incoming.Values <==> exists i :: i in g.incoming && g.incoming[i] == remote;
  }

  /** Whoever leases at an address shares the object that is in use there; a new object is made only if there is
      none, and it has one user. */
  lemma LeaseShares(ops: seq<Op>, addr: Addr, ref: nat)
    requires IsRun(Init, ops) && Enabled(Run(Init, ops), Leasing(addr, ref))
    ensures var g := Run(Init, ops); var (g', s) := Lease(g, addr, ref);
            && s.remote == addr && addr in g'.tmp && g'.tmp[addr].raw == s
            && g'.live.leases[s] == g.live.leases[s] + 1 && g'.tmp[addr].users == g'.live.leases[s]
            && (addr in g.tmp ==> s == g.tmp[addr].raw) && (addr !in g.tmp ==> s.ref == ref && g'.tmp[addr].users == 1)
            && forall a :: a != addr ==>
                 (a in g'.tmp <==> a in g.tmp) && (a in g.tmp && a in g'.tmp ==> g'.tmp[a] == g.tmp[a])
  {
    ReachableBooks(ops);
  }

  // ---------------------------------------------------------------- late drops

  /** Dropping an admission gives back exactly that admission. */
  lemma AdmissionReturned(ops: seq<Op>, a: Admission)
    requires IsRun(Init, ops) && a in Run(Init, ops).live.admissions
    ensures var g := Run(Init, ops); DropAdmission(g, a).admitted == g.admitted - {a.remote}
  {
    ReachableBooks(ops);
  }

  /** Once dropped, an admission never becomes valid again: whoever is admitted later has a new token,
      so an old token can never remove a newer admission. */
  predicate Spent(g: Guards, a: Admission) {
    a.token <= g.nextAdmission && (a.remote in g.admitted ==> g.admitted[a.remote] != a.token)
  }

  lemma {:induction false} SpentForever(g: Guards, ops: seq<Op>, a: Admission)
    requires IsRun(g, ops) && Spent(g, a)
    ensures Spent(Run(g, ops), a)
    ensures DropAdmission(Run(g, ops), a).admitted == Run(g, ops).admitted
    decreases |ops|
  {
    if ops != [] {
      assert Spent(Step(g, ops[0]), a);
      SpentForever(Step(g, ops[0]), ops[1..], a);
    }
  }

  /** Dropping a lease takes one user off its own object, removes the object with its last user, and
      touches no other object, in particular not a newer one at the same address. */
  lemma LeaseReturned(ops: seq<Op>, s: RawSession, addr: Addr)
    requires IsRun(Init, ops) && s in Run(Init, ops).live.leases && addr in Run(Init, ops).tmp
    ensures var g := Run(Init, ops); var tmp := DropLease(g, s).tmp;
            if g.tmp[addr].raw != s then addr in tmp && tmp[addr] == g.tmp[addr]
            else if g.live.leases[s] > 1 then
              addr in tmp && tmp[addr] == TemporarySession(s, g.live.leases[s] - 1 as nat)
            else addr !in tmp
  {
    ReachableBooks(ops);
  }

  lemma {:induction false} DisownedStays(g: Guards, ops: seq<Op>)
    requires IsRun(g, ops)
    ensures g.live.disowned <= Run(g, ops).live.disowned
    decreases |ops|
  {
    if ops != [] {
      DisownedStays(Step(g, ops[0]), ops[1..]);
    }
  }

  /** A lease that outlives a shutdown is harmless: whenever it is dropped, no temporary session loses
      a user. */
  lemma LateLeaseIsHarmless(before: seq<Op>, after: seq<Op>, s: RawSession)
    requires IsRun(Init, before) && s in Run(Init, before).live.leases
    requires IsRun(Shutdown(Run(Init, before)).0, after)
    requires s in Run(Shutdown(Run(Init, before)).0, after).live.leases
    ensures var g := Run(Shutdown(Run(Init, before)).0, after); DropLease(g, s).tmp == g.tmp
  {
    ReachableBooks(before);
    var g0 := Run(Init, before);
    var g1 := Shutdown(g0).0;
    assert s in g1.live.disowned;
    assert Inv(g1);
    DisownedStays(g1, after);
    RunKeeps(g1, after);
  }

  /** A shutdown empties the tables and aborts every handshake that had a slot. */
  lemma ShutdownIsComplete(ops: seq<Op>, id: SessionId)
    requires IsRun(Init, ops) && id in Run(Init, ops).incoming
    ensures var g := Run(Init, ops); var (g', aborted) := Shutdown(g);
            && id in g.handles && g.handles[id] in aborted
            && g'.incoming == map[] && g'.handles == map[] && g'.tmp == map[]
  {
    ReachableBooks(ops);
    var g := Run(Init, ops);
    assert id in g.handles.Keys;
  }
}
