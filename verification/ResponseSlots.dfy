/**
 Matching responses to the requests that wait for them. A request is a one-shot channel; the table
 keeps the sending half under the request id, the caller keeps the receiving half and may drop it
 at any time. Request ids are chosen by callers and may repeat.
 */
module ResponseSlots {

  type RequestId = nat

  /** What the receiving half has got: the number of a response, or the news that none will come. */
  datatype Status = Waiting | Got(response: nat) | Cancelled

  datatype Request = Request(id: RequestId, status: Status, closed: bool)
  {
    predicate Unanswered() {
      status.Waiting? && !closed
    }
  }

  /** Requests are numbered in the order they were made, responses in the order they arrived. */
  datatype Slots = Slots(
    responses: map<RequestId, nat>,
    requests: map<nat, Request>,
    made: nat,
    arrived: nat)

  const Init := Slots(map[], map[], 0, 0)

  // ---------------------------------------------------------------- operations

  function WithStatus(requests: map<nat, Request>, c: nat, status: Status): map<nat, Request> {
    if c in requests then requests[c := requests[c].(status := status)] else requests
  }

  /** Register a request. A request that already used the id loses its slot. */
  function Make(s: Slots, id: RequestId): Slots {
    var requests := if id in s.responses then WithStatus(s.requests, s.responses[id], Cancelled) else s.requests;
    s.(responses := s.responses[id := s.made],
       requests := requests[s.made := Request(id, Waiting, false)],
       made := s.made + 1)
  }

  /** A response arrived: it is sent into the slot of its id, which is used up. */
  function Arrive(s: Slots, id: RequestId): Slots {
    if id !in s.responses then s.(arrived := s.arrived + 1)
    else
      var c := s.responses[id];
      var status := if c in s.requests && s.requests[c].closed then Cancelled else Got(s.arrived);
      s.(responses := s.responses - {id}, requests := WithStatus(s.requests, c, status), arrived := s.arrived + 1)
  }

  predicate Closed(requests: map<nat, Request>, c: nat) {
    c in requests && requests[c].closed
  }

  /** The caller stops waiting. The slot is removed only if nobody listens to it any more. */
  function Drop(s: Slots, c: nat): Slots {
    if c !in s.requests then s
    else
      var id := s.requests[c].id;
      var requests := s.requests[c := s.requests[c].(closed := true)];
      if id in s.responses && Closed(requests, s.responses[id])
      then s.(responses := s.responses - {id}, requests := WithStatus(requests, s.responses[id], Cancelled))
      else s.(requests := requests)
  }

  datatype Op = Making(id: RequestId) | Arriving(id: RequestId) | Dropping(c: nat)

  function Step(s: Slots, op: Op): Slots {
    match op
    case Making(id) => Make(s, id)
    case Arriving(id) => Arrive(s, id)
    case Dropping(c) => Drop(s, c)
  }

  function Run(s: Slots, ops: seq<Op>): Slots
    decreases |ops|
  {
    if ops == [] then s else Run(Step(s, ops[0]), ops[1..])
  }

  // ---------------------------------------------------------------- the invariant

  predicate SlotOk(s: Slots, id: RequestId)
    requires id in s.responses
  {
    var c := s.responses[id];
    c in s.requests && s.requests[c].id == id && s.requests[c].Unanswered()
  }

  /** A request is in the table exactly while it is unanswered, and no newer request has its id. */
  predicate RequestOk(s: Slots, c: nat)
    requires c in s.requests
  {
    var r := s.requests[c];
    && c < s.made
    && (r.Unanswered() <==> r.id in s.responses && s.responses[r.id] == c)
    && (r.status.Waiting? ==> !r.closed)
    && (r.id in s.responses ==> c <= s.responses[r.id])
    && (r.status.Got? ==> r.status.response < s.arrived)
  }

  predicate DeliveredOnce(s: Slots) {
    forall c, d ::
      c in s.requests && d in s.requests && s.requests[c].status.Got? && s.requests[c].status == s.requests[d].status
      ==> c == d
  }

  ghost predicate Inv(s: Slots) {
    && (forall id :: id in s.responses ==> SlotOk(s, id))
    && (forall c :: c in s.requests ==> RequestOk(s, c))
    && DeliveredOnce(s)
  }

  lemma MakeKeeps(s: Slots, id: RequestId)
    requires Inv(s)
    ensures Inv(Make(s, id))
  {
    var s' := Make(s, id);
    assert id in s.responses ==> SlotOk(s, id);
    forall i | i in s'.responses ensures SlotOk(s', i) {
      assert i != id ==> SlotOk(s, i);
    }
    forall c | c in s'.requests ensures RequestOk(s', c) {
      if c in s.requests {
        assert RequestOk(s, c);
      }
    }
  }

  lemma ArriveKeeps(s: Slots, id: RequestId)
    requires Inv(s)
    ensures Inv(Arrive(s, id))
  {
    var s' := Arrive(s, id);
    assert id in s.responses ==> SlotOk(s, id);
    forall i | i in s'.responses ensures SlotOk(s', i) {
      assert SlotOk(s, i);
    }
    forall c | c in s'.requests ensures RequestOk(s', c) {
      assert RequestOk(s, c);
    }
    forall c, d | c in s'.requests && d in s'.requests && s'.requests[c].status.Got?
                  && s'.requests[c].status == s'.requests[d].status ensures c == d {
      assert RequestOk(s, c) && RequestOk(s, d);
    }
  }

  lemma DropKeeps(s: Slots, c: nat)
    requires Inv(s)
    ensures Inv(Drop(s, c))
  {
    var s' := Drop(s, c);
    if c in s.requests {
      var id := s.requests[c].id;
      assert RequestOk(s, c);
      assert id in s.responses ==> SlotOk(s, id);
      forall i | i in s'.responses ensures SlotOk(s', i) {
        assert SlotOk(s, i);
      }
      forall d | d in s'.requests ensures RequestOk(s', d) {
        assert RequestOk(s, d);
      }
    }
  }

  lemma {:induction false} RunKeeps(s: Slots, ops: seq<Op>)
    requires Inv(s)
    ensures Inv(Run(s, ops))
    decreases |ops|
  {
    if ops != [] {
      match ops[0] {
        case Making(id) => MakeKeeps(s, id);
        case Arriving(id) => ArriveKeeps(s, id);
        case Dropping(c) => DropKeeps(s, c);
      }
      RunKeeps(Step(s, ops[0]), ops[1..]);
    }
  }

  // ---------------------------------------------------------------- what callers can rely on

  /** After any run, the table holds for each id exactly the newest request with that id that is
      still waiting, and nothing else. */
  lemma TableIsExact(ops: seq<Op>, id: RequestId, c: nat)
    ensures var s := Run(Init, ops);
            (id in s.responses && s.responses[id] == c)
            <==> && c in s.requests && s.requests[c].id == id && s.requests[c].Unanswered()
                 && forall d :: d in s.requests && s.requests[d].id == id ==> d <= c
  {
    RunKeeps(Init, ops);
    var s := Run(Init, ops);
    if id in s.responses && s.responses[id] == c {
      assert SlotOk(s, id);
      forall d | d in s.requests && s.requests[d].id == id ensures d <= c {
        assert RequestOk(s, d);
      }
    } else if c in s.requests {
      assert RequestOk(s, c);
    }
  }

  /** A new request waits in the slot of its id. The request that waited there, if any, learns that no response
      will come; nothing else changes. */
  lemma NewRequestWaits(ops: seq<Op>, id: RequestId)
    ensures var s := Run(Init, ops); var s' := Make(s, id);
            && s.made !in s.requests && s'.made == s.made + 1 && s'.arrived == s.arrived
            && s'.requests.Keys == s.requests.Keys + {s.made} && s'.requests[s.made] == Request(id, Waiting, false)
            && id in s'.responses && s'.responses[id] == s.made
            && (forall c :: c in s.requests ==>
                  s'.requests[c] == if s.requests[c].id == id && s.requests[c].Unanswered()
                                    then s.requests[c].(status := Cancelled) else s.requests[c])
            && (forall i :: i != id ==> (i in s'.responses <==> i in s.responses))
            && (forall i :: i != id && i in s.responses ==> s'.responses[i] == s.responses[i])
  {
    RunKeeps(Init, ops);
    var s := Run(Init, ops);
    assert forall c :: c in s.requests ==> RequestOk(s, c);
    assert id in s.responses ==> SlotOk(s, id);
  }

  /** Dropping a request never removes the slot of another one. */
  lemma DropSparesOthers(ops: seq<Op>, c: nat, id: RequestId)
    ensures var s := Run(Init, ops); var s' := Drop(s, c);
            id in s.responses && s.responses[id] != c ==> id in s'.responses && s'.responses[id] == s.responses[id]
    ensures var s := Run(Init, ops); var s' := Drop(s, c);
            forall d :: d in s.requests && d != c ==> d in s'.requests && s'.requests[d] == s.requests[d]
  {
    RunKeeps(Init, ops);
    var s := Run(Init, ops);
    if id in s.responses {
      assert SlotOk(s, id);
    }
    if c in s.requests && s.requests[c].id in s.responses {
      assert SlotOk(s, s.requests[c].id);
    }
  }

  /** A response reaches the newest waiting request with its id, if there is one, and no other. */
  lemma ArrivalReachesOne(ops: seq<Op>, id: RequestId, d: nat)
    requires d in Run(Init, ops).requests
    ensures var s := Run(Init, ops); var s' := Arrive(s, id);
            d in s'.requests && s'.requests[d] ==
              if id in s.responses && s.responses[id] == d then s.requests[d].(status := Got(s.arrived))
              else s.requests[d]
  {
    RunKeeps(Init, ops);
    var s := Run(Init, ops);
    if id in s.responses {
      assert SlotOk(s, id);
    }
  }

  /** Two requests never get the same response. */
  lemma ResponsesAreNotShared(ops: seq<Op>, c: nat, d: nat)
    requires var s := Run(Init, ops);
             && c in s.requests && d in s.requests
             && s.requests[c].status.Got? && s.requests[c].status == s.requests[d].status
    ensures c == d
  {
    RunKeeps(Init, ops);
  }

  lemma SettledStep(s: Slots, op: Op, c: nat)
    requires Inv(s) && c in s.requests && !s.requests[c].status.Waiting?
    ensures c in Step(s, op).requests && Step(s, op).requests[c].status == s.requests[c].status
  {
    assert RequestOk(s, c);
    match op {
      case Making(id) => assert id in s.responses ==> SlotOk(s, id);
      case Arriving(id) => assert id in s.responses ==> SlotOk(s, id);
      case Dropping(d) => if d in s.requests && s.requests[d].id in s.responses { assert SlotOk(s, s.requests[d].id); }
    }
  }

  /** What a request got it keeps: no later response, request or drop changes it. */
  lemma {:induction false} SettledForever(s: Slots, ops: seq<Op>, c: nat)
    requires Inv(s) && c in s.requests && !s.requests[c].status.Waiting?
    ensures c in Run(s, ops).requests && Run(s, ops).requests[c].status == s.requests[c].status
    decreases |ops|
  {
    if ops != [] {
      SettledStep(s, ops[0], c);
      RunKeeps(s, [ops[0]]);
      assert [ops[0]][1..] == [] && Run(s, [ops[0]]) == Step(s, ops[0]);
      SettledForever(Step(s, ops[0]), ops[1..], c);
    }
  }
}
