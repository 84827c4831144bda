/** The request/response correlator of the debugger: a request counter and a table of
    pending `Runtime.getProperties` requests, each with a deadline and a one-slot reply
    buffer (the buffered channel of capacity one). Time is an explicit `now` in
    milliseconds. */
module Correlation {
  import opened Wrappers
  import opened Protocol

  /** How long a `Runtime.getProperties` request waits for its reply: 5 seconds. */
  const PropertiesTimeout := 5000

  /** The part of a reply frame the waiter reads: its `result` object, if there is one. */
  datatype Reply = Reply(result: Option<PropertiesResult>)

  /** A registered request: its deadline and the reply delivered to it, if any. */
  datatype PendingRequest = PendingRequest(deadline: int, mailbox: Option<Reply>)

  /** What routing a reply frame did. `WouldBlock`: the entry's buffer already holds a reply;
      the Go send to the full one-slot channel would block the routing goroutine, which this
      sequential model does not represent: it records the outcome and changes nothing. */
  datatype DispatchOutcome = Delivered | Expired | UnknownId | WouldBlock

  class Correlator {
    /** `requestCounter`: the last id handed out. */
    var requestCounter: int
    /** `pendingRequests`: id to registered request. */
    var pendingRequests: map<int, PendingRequest>

    /** Every pending id was handed out by the counter. */
    ghost predicate Valid()
      reads this
    {
      requestCounter >= 0 && forall id :: id in pendingRequests ==> 1 <= id <= requestCounter
    }

    constructor ()
      ensures Valid() && requestCounter == 0 && pendingRequests == map[]
    {
      requestCounter := 0;
      pendingRequests := map[];
    }

    /** Takes the next id (an atomic increment) and registers an empty entry under it. */
    method Register(deadline: int) returns (id: int)
      requires Valid()
      modifies this
      ensures Valid()
      ensures id == old(requestCounter) + 1 && requestCounter == id
      ensures id !in old(pendingRequests)
      ensures pendingRequests == old(pendingRequests)[id := PendingRequest(deadline, None)]
    {
      requestCounter := requestCounter + 1;
      id := requestCounter;
      pendingRequests := pendingRequests[id := PendingRequest(deadline, None)];
    }

    /** The deferred clean-up: drops the entry, whatever happened to it. */
    method Remove(id: int)
      requires Valid()
      modifies this
      ensures Valid()
      ensures requestCounter == old(requestCounter)
      ensures pendingRequests == old(pendingRequests) - {id}
    {
      pendingRequests := pendingRequests - {id};
    }

    /** `handleWebSocketMessage` for a frame carrying `id`: the reply goes only to the entry
        registered under that id, and only strictly before its deadline. */
    method Dispatch(id: int, now: int, reply: Reply) returns (outcome: DispatchOutcome)
      requires Valid()
      modifies this
      ensures Valid() && requestCounter == old(requestCounter)
      ensures outcome == Delivered <==>
        id in old(pendingRequests) && now < old(pendingRequests)[id].deadline
        && old(pendingRequests)[id].mailbox.None?
      ensures outcome == UnknownId <==> id !in old(pendingRequests)
      ensures outcome == Expired <==> id in old(pendingRequests) && now >= old(pendingRequests)[id].deadline
      ensures pendingRequests ==
        if outcome == Delivered then old(pendingRequests)[id := PendingRequest(old(pendingRequests)[id].deadline, Some(reply))]
        else old(pendingRequests)
    {
      if id !in pendingRequests {
        return UnknownId;
      }
      var entry := pendingRequests[id];
      if now >= entry.deadline {
        return Expired;
      }
      if entry.mailbox.Some? {
        return WouldBlock;
      }
      pendingRequests := pendingRequests[id := PendingRequest(entry.deadline, Some(reply))];
      outcome := Delivered;
    }

    /** `getObjectProperties`: register, send the request (which may fail), wait, clean up.
        The wait can only see a reply that `Dispatch` put in the buffer after the entry was
        registered. Within one request, the only caller of `Dispatch` is the capture loop, and
        it is the very caller that is now waiting, so nothing is routed and the wait ends on its
        deadline: with one request in flight the result is always `None`, and the table is as
        it was before the call. (A concurrent request's capture loop could route a reply into
        this entry; concurrent requests are not modelled.) */
    method GetObjectProperties(objectId: string, now: int, writable: bool) returns (props: Option<PropertiesResult>)
      requires Valid()
      modifies this
      ensures Valid()
      ensures requestCounter == old(requestCounter) + 1
      ensures pendingRequests == old(pendingRequests)
      ensures props == None
    {
      var id := Register(now + PropertiesTimeout);
      if !writable {
        Remove(id);
        return None;
      }
      match pendingRequests[id].mailbox {
        case Some(reply) =>
          props := reply.result;
        case None =>
          props := None;
      }
      Remove(id);
    }
  }
}
