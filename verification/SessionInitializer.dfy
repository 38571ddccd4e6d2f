/**
 The session initializer's bookkeeping as it is kept in memory. Every method is one locked region and
 its postcondition equates the new contents with the operation of the guard model.
 */
module SessionInitializers {
  import opened Wrappers
  import opened HandshakeGuards
  import G = HandshakeGuards

  class SessionInitializerState {
    var admitted: map<Addr, nat>
    var nextAdmission: nat
    var incomingSessions: map<SessionId, Addr>
    var handles: map<SessionId, Handle>
    var tmpSessions: map<Addr, TemporarySession>
    ghost var live: Live

    constructor ()
      ensures Model() == Init
    {
      admitted := map[];
      nextAdmission := 0;
      incomingSessions := map[];
      handles := map[];
      tmpSessions := map[];
      live := Live({}, {}, multiset{}, {}, {});
    }

    ghost function Model(): Guards
      reads this
    {
      Guards(admitted, nextAdmission, incomingSessions, handles, tmpSessions, live)
    }

    method AdmitIncoming(remote: Addr) returns (admission: Option<Admission>)
      modifies this
      ensures (Model(), admission) == Admit(old(Model()), remote)
    {
      if remote in admitted || |admitted| >= MAX_INCOMING_HANDSHAKES || nextAdmission >= MAX_U64 {
        return None;
      }
      nextAdmission := nextAdmission + 1;
      admitted := admitted[remote := nextAdmission];
      live := live.(admissions := live.admissions + {Admission(remote, nextAdmission)});
      return Some(Admission(remote, nextAdmission));
    }

    method DropAdmission(a: Admission)
      modifies this
      ensures Model() == G.DropAdmission(old(Model()), a)
    {
      if a.remote in admitted && admitted[a.remote] == a.token {
        admitted := admitted - {a.remote};
      }
      live := live.(admissions := live.admissions - {a});
    }

    method HasSlot(remote: Addr) returns (found: bool)
      ensures found == (remote in incomingSessions.Values)
    {
      var ids := incomingSessions.Keys;
      while ids != {}
        invariant ids <= incomingSessions.Keys
        invariant forall i :: i in incomingSessions && i !in ids ==> incomingSessions[i] != remote
        decreases ids
      {
        var id :| id in ids;
        if incomingSessions[id] == remote {
          return true;
        }
        ids := ids - {id};
      }
      return false;
    }

    method OpenSlot(id: SessionId, remote: Addr, handle: Handle) returns (ok: bool)
      modifies this
      ensures (Model(), ok) == G.OpenSlot(old(Model()), id, remote, handle)
    {
      var taken := HasSlot(remote);
      if |incomingSessions| >= MAX_INCOMING_HANDSHAKES || taken {
        return false;
      }
      incomingSessions := incomingSessions[id := remote];
      handles := handles[id := handle];
      live := live.(slots := live.slots + {id});
      return true;
    }

    method DropSlot(id: SessionId)
      modifies this
      ensures Model() == G.DropSlot(old(Model()), id)
    {
      incomingSessions := incomingSessions - {id};
      handles := handles - {id};
      live := live.(slots := live.slots - {id});
    }

    method LeaseTemporarySession(addr: Addr, ref: nat) returns (session: RawSession)
      modifies this
      ensures (Model(), session) == Lease(old(Model()), addr, ref)
    {
      if addr !in tmpSessions {
        tmpSessions := tmpSessions[addr := TemporarySession(RawSession(ref, addr), 0)];
      }
      session := tmpSessions[addr].raw;
      tmpSessions := tmpSessions[addr := TemporarySession(session, tmpSessions[addr].users + 1)];
      assert tmpSessions == old(tmpSessions)[addr := tmpSessions[addr]];
      live := live.(leases := live.leases + multiset{session});
    }

    /** The user count is decremented without a check: it cannot be zero while the lease is alive. */
    method DropLease(s: RawSession)
      requires LeasesOk(Model()) && s in live.leases
      modifies this
      ensures Model() == G.DropLease(old(Model()), s) && LeasesOk(Model())
    {
      ghost var before := Model();
      DropLeaseKept(before, s);
      if s.remote in tmpSessions && tmpSessions[s.remote].raw == s {
        var users: nat := tmpSessions[s.remote].users - 1;
        if users == 0 {
          tmpSessions := tmpSessions - {s.remote};
        } else {
          tmpSessions := tmpSessions[s.remote := TemporarySession(s, users)];
        }
      }
      live := live.(leases := live.leases - multiset{s});
      assert Model() == G.DropLease(before, s);
    }

    method Shutdown() returns (aborted: set<Handle>)
      modifies this
      ensures (Model(), aborted) == G.Shutdown(old(Model()))
    {
      aborted := handles.Values;
      live := live.(disownedSlots := live.slots,
                    disowned := live.disowned + set a | a in tmpSessions :: tmpSessions[a].raw);
      incomingSessions := map[];
      tmpSessions := map[];
      handles := map[];
    }
  }
}
