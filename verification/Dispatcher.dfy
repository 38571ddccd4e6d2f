/**
 The dispatcher's table of pending responses as it is kept in memory: one-shot channels shared
 between the table and the callers that wait on them.
 */
module Dispatchers {
  import S = ResponseSlots

  /** A one-shot channel: what has been sent, and whether the receiving half is gone. */
  class Channel {
    ghost const number: nat
    const id: S.RequestId
    var status: S.Status
    var closed: bool

    constructor (ghost number: nat, id: S.RequestId)
      ensures this.number == number && Contents() == S.Request(id, S.Waiting, false)
    {
      this.number := number;
      this.id := id;
      this.status := S.Waiting;
      this.closed := false;
    }

    ghost function Contents(): S.Request
      reads this
    {
      S.Request(id, status, closed)
    }
  }

  class Dispatcher {
    var responses: map<S.RequestId, Channel>
    ghost var channels: map<nat, Channel>
    ghost var made: nat
    var arrived: nat

    constructor ()
      ensures Valid() && Model() == S.Init
    {
      responses := map[];
      channels := map[];
      made := 0;
      arrived := 0;
    }

    ghost predicate Owns(c: Channel)
      reads this
    {
      c.number in channels && channels[c.number] == c
    }

    ghost predicate Valid()
      reads this
    {
      && (forall n :: n in channels ==> n < made && channels[n].number == n)
      && (forall id :: id in responses ==> Owns(responses[id]))
    }

    ghost function Requests(): map<nat, S.Request>
      reads this, channels.Values
    {
      map n | n in channels :: channels[n].Contents()
    }

    ghost function Numbers(): map<S.RequestId, nat>
      reads this
    {
      map id | id in responses :: responses[id].number
    }

    ghost function Model(): S.Slots
      reads this, channels.Values
    {
      S.Slots(Numbers(), Requests(), made, arrived)
    }

    /** One channel changed; all others are as they were. */
    twostate lemma OneChannelChanged(c: Channel)
      requires old(Valid()) && old(Owns(c)) && unchanged(this`channels)
      requires forall n :: n in channels && n != c.number ==> unchanged(channels[n])
      ensures Requests() == old(Requests())[c.number := c.Contents()]
    {
    }

    twostate lemma OneChannelMore(new c: Channel)
      requires old(Valid()) && channels == old(channels)[old(made) := c] && fresh(c)
      requires forall n :: n in old(channels) ==> unchanged(old(channels)[n])
      ensures Requests() == old(Requests())[old(made) := c.Contents()]
    {
    }

    twostate lemma OneSlotMore(id: S.RequestId, new c: Channel)
      requires responses == old(responses)[id := c]
      ensures Numbers() == old(Numbers())[id := c.number]
    {
    }

    twostate lemma OneSlotLess(id: S.RequestId)
      requires responses == old(responses) - {id}
      ensures Numbers() == old(Numbers()) - {id}
    {
    }

    /** Register a request and return the channel to wait on. */
    method Response(id: S.RequestId) returns (pending: Channel)
      requires Valid()
      modifies this`responses, this`channels, this`made, channels.Values
      ensures Valid() && Owns(pending) && pending.number == old(made) && fresh(pending)
      ensures Model() == S.Make(old(Model()), id)
    {
      if id in responses {
        responses[id].status := S.Cancelled;
        OneChannelChanged(responses[id]);
      }
      pending := Register(id);
    }

    method Register(id: S.RequestId) returns (pending: Channel)
      requires Valid()
      modifies this`responses, this`channels, this`made
      ensures Valid() && Owns(pending) && pending.number == old(made) && fresh(pending)
      ensures Requests() == old(Requests())[old(made) := S.Request(id, S.Waiting, false)]
      ensures Model() == old(Model()).(responses := old(Model()).responses[id := old(made)],
                                       requests := Requests(), made := old(made) + 1)
    {
      pending := new Channel(made, id);
      channels := channels[made := pending];
      responses := responses[id := pending];
      made := made + 1;
      OneChannelMore(pending);
      OneSlotMore(id, pending);
    }

    /** A response arrived. It can be received once, by the channel that holds the slot. */
    method DispatchResponse(id: S.RequestId)
      requires Valid()
      modifies this`responses, this`arrived, channels.Values
      ensures Valid() && Model() == S.Arrive(old(Model()), id)
    {
      if id in responses {
        Settle(id, if responses[id].closed then S.Cancelled else S.Got(arrived));
      }
      arrived := arrived + 1;
    }

    /** The caller stops waiting: its receiving half is closed, and the slot is removed if its channel
        is closed. A duplicate request id may already belong to a newer channel. */
    method DropPending(pending: Channel)
      requires Valid() && Owns(pending)
      modifies this`responses, channels.Values
      ensures Valid() && Model() == S.Drop(old(Model()), pending.number)
    {
      pending.closed := true;
      OneChannelChanged(pending);
      if pending.id in responses && responses[pending.id].closed {
        Settle(pending.id, S.Cancelled);
      }
    }

    /** Use up a slot: the channel gets `status` and leaves the table. */
    method Settle(id: S.RequestId, status: S.Status)
      requires Valid() && id in responses
      modifies this`responses, channels.Values
      ensures Valid()
      ensures var s := old(Model());
              Model() == s.(responses := s.responses - {id},
                            requests := S.WithStatus(s.requests, s.responses[id], status))
    {
      var c := responses[id];
      c.status := status;
      OneChannelChanged(c);
      responses := responses - {id};
      OneSlotLess(id);
    }
  }
}
