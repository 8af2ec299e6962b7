/** The client manager of main.go:18-96 as an object whose event handlers update its
    fields in place, each proved against the matching step of module Hub. */
module Manager {
  import opened Envelopes
  import opened Hub

  class ClientManager {
    /** How many pending messages a `send` channel takes before a non-blocking send
        on it fails. */
    const capacity: nat
    /** The live set, `mn.clients`. */
    var clients: set<ClientId>
    /** Pending messages on the `send` channel of every client handed to the manager. */
    var queue: map<ClientId, seq<Envelope>>
    /** Clients whose `send` channel has been closed. */
    var closed: set<ClientId>

    function State(): HubState
      reads this
    {
      HubState(capacity, clients, queue, closed)
    }

    ghost predicate Valid()
      reads this
    {
      Consistent(State())
    }

    constructor (capacity: nat)
      ensures Valid()
      ensures State() == Init(capacity)
    {
      this.capacity := capacity;
      clients, queue, closed := {}, map[], {};
    }

    /** `close(conn.send)`. Go panics when a channel is closed twice, hence the
        precondition: every call site proves the channel is still open. */
    method CloseChannel(c: ClientId)
      requires c in queue && c !in closed
      modifies this`closed
      ensures closed == old(closed) + {c}
    {
      closed := closed + {c};
    }

    /** The blocking `conn.send <- message` of main.go:93, modelled as completed: the
        message stays pending until `Receive` takes it. Go panics on a send to a
        closed channel. */
    method Put(c: ClientId, m: Envelope)
      requires c in queue && c !in closed
      modifies this`queue
      ensures queue == old(queue)[c := old(queue)[c] + [m]]
    {
      queue := queue[c := queue[c] + [m]];
    }

    /** The non-blocking send of main.go:78-80: it succeeds exactly when the channel
        has room. */
    method TryPut(c: ClientId, m: Envelope) returns (sent: bool)
      requires c in queue && c !in closed
      modifies this`queue
      ensures sent <==> |old(queue)[c]| < capacity
      ensures queue == if sent then old(queue)[c := old(queue)[c] + [m]] else old(queue)
    {
      sent := |queue[c]| < capacity;
      if sent {
        queue := queue[c := queue[c] + [m]];
      }
    }

    /** `send(message, ignore)`, main.go:90-96: every live client but `ignore` gets
        `m` once. */
    method Send(m: Envelope, ignore: ClientId)
      requires Valid()
      modifies this`queue
      ensures Valid()
      ensures State() == SendStep(old(State()), m, ignore)
    {
      ghost var s0 := State();
      var pending := clients;
      while pending != {}
        invariant pending <= s0.live
        invariant State() == SendTo(s0, m, ignore, s0.live - pending)
        decreases pending
      {
        var c :| c in pending;
        ghost var visited := s0.live - pending;
        SendToVisit(s0, m, ignore, visited, c);
        if c != ignore {
          Put(c, m);
        }
        pending := pending - {c};
        assert s0.live - pending == visited + {c};
      }
    }

    /** The register case, main.go:57-60. */
    method Register(c: ClientId)
      requires Valid() && c !in closed
      modifies this
      ensures Valid()
      ensures State() == RegisterStep(old(State()), c)
    {
      if c !in queue {
        queue := queue[c := []];
      }
      clients := clients + {c};
      Send(JoinedNotice, c);
    }

    /** The unregister case, main.go:65-71. */
    method Unregister(c: ClientId)
      requires Valid()
      modifies this
      ensures Valid()
      ensures State() == UnregisterStep(old(State()), c)
    {
      if c in clients {
        CloseChannel(c);
        clients := clients - {c};
        Send(LeftNotice, c);
      }
    }

    /** The broadcast case, main.go:76-84: a client whose channel is full is dropped
        on the spot. */
    method Broadcast(m: Envelope)
      requires Valid()
      modifies this
      ensures Valid()
      ensures State() == BroadcastStep(old(State()), m)
    {
      ghost var s0 := State();
      var pending := clients;
      while pending != {}
        invariant pending <= s0.live
        invariant State() == OfferTo(s0, m, s0.live - pending)
        decreases pending
      {
        var c :| c in pending;
        ghost var visited := s0.live - pending;
        ghost var t := State();
        OfferToUnvisited(s0, m, visited, c);
        OfferToVisit(s0, m, visited, c);
        var sent := TryPut(c, m);
        if sent {
          assert State() == t.(queue := t.queue[c := s0.queue[c] + [m]]);
        } else {
          CloseChannel(c);
          clients := clients - {c};
          assert State() == t.(live := t.live - {c}, closed := t.closed + {c});
        }
        pending := pending - {c};
        assert s0.live - pending == visited + {c};
      }
      OfferToConsistent(s0, m, s0.live);
    }

    /** One receive by the write pump of client `c` (main.go:121). */
    method Receive(c: ClientId) returns (d: Delivery)
      requires Valid()
      modifies this`queue
      ensures Valid()
      ensures (State(), d) == ReceiveStep(old(State()), c)
    {
      if c in queue && queue[c] != [] {
        d := Delivered(queue[c][0]);
        queue := queue[c := queue[c][1..]];
      } else if c in closed {
        d := Drained;
      } else {
        d := Waiting;
      }
    }
  }
}
