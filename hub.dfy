/** The event handler of the client manager (main.go:51-96) as a state machine over
    values: one step per register, unregister or broadcast event, plus the receive
    step with which a client's write pump drains its channel. */
module Hub {
  import opened Envelopes

  /** What the manager knows about its clients.
      - `live` is the map `clients` of main.go:19 (its values are always `true`).
      - `queue[c]` holds the messages handed to client `c`'s `send` channel that its
        write pump has not taken yet, for every client the manager has been handed.
      - `closed` holds the clients whose `send` channel has been closed.
      - `capacity` is how many pending messages a channel takes before a non-blocking
        send on it fails; every channel is made the same way (main.go:145).
      A client absent from `queue` still has its fresh, empty, open channel. */
  datatype HubState = HubState(
    capacity: nat,
    live: set<ClientId>,
    queue: map<ClientId, seq<Envelope>>,
    closed: set<ClientId>)

  /** The manager as declared at main.go:44-49: no clients. */
  function Init(capacity: nat): HubState {
    HubState(capacity, {}, map[], {})
  }

  /** A client is live exactly when it was registered and its channel is not closed. */
  predicate Consistent(s: HubState) {
    s.closed <= s.queue.Keys && s.live == s.queue.Keys - s.closed
  }

  /** The fan-out loop of `send` (main.go:91-95) after it has visited the clients in
      `visited`: each live visited client other than `ignore` has `m` appended. */
  function SendTo(s: HubState, m: Envelope, ignore: ClientId, visited: set<ClientId>): HubState {
    s.(queue := map c | c in s.queue ::
                  if c in visited && c in s.live && c != ignore then s.queue[c] + [m] else s.queue[c])
  }

  /** `send(m, ignore)`, main.go:90-96. */
  function SendStep(s: HubState, m: Envelope, ignore: ClientId): HubState {
    SendTo(s, m, ignore, s.live)
  }

  /** The register case, main.go:57-60. A client the manager has not seen before
      brings its fresh, empty channel. */
  function RegisterStep(s: HubState, c: ClientId): HubState {
    var joined := s.(live := s.live + {c},
                     queue := if c in s.queue then s.queue else s.queue[c := []]);
    SendStep(joined, JoinedNotice, c)
  }

  /** The unregister case, main.go:65-71: nothing happens unless `c` is live. */
  function UnregisterStep(s: HubState, c: ClientId): HubState {
    if c in s.live then
      SendStep(s.(live := s.live - {c}, closed := s.closed + {c}), LeftNotice, c)
    else
      s
  }

  /** A non-blocking send to `c` (main.go:79) fails when its channel is full. */
  predicate Full(s: HubState, c: ClientId)
    requires c in s.queue
  {
    |s.queue[c]| >= s.capacity
  }

  /** The live clients among `visited` whose channel is full. */
  function Evicted(s: HubState, visited: set<ClientId>): set<ClientId> {
    set c | c in visited && c in s.live && c in s.queue && Full(s, c)
  }

  /** The broadcast loop (main.go:77-84) after it has visited the clients in
      `visited`: a live visited client whose channel had room has `m` appended; one
      whose channel was full has its channel closed and is removed. */
  function OfferTo(s: HubState, m: Envelope, visited: set<ClientId>): HubState {
    var gone := Evicted(s, visited);
    s.(live := s.live - gone,
       queue := map c | c in s.queue ::
                  if c in visited && c in s.live && !Full(s, c) then s.queue[c] + [m] else s.queue[c],
       closed := s.closed + gone)
  }

  /** The broadcast case, main.go:76-84. */
  function BroadcastStep(s: HubState, m: Envelope): HubState {
    OfferTo(s, m, s.live)
  }

  /** What one receive on a channel yields (`range cli.send`, main.go:121). */
  datatype Delivery =
    | Delivered(message: Envelope)  // the oldest pending message
    | Waiting                       // open and empty: the receive would block
    | Drained                       // closed and empty: the range loop ends

  /** One receive by client `c`'s write pump. */
  function ReceiveStep(s: HubState, c: ClientId): (HubState, Delivery) {
    if c in s.queue && s.queue[c] != [] then
      (s.(queue := s.queue[c := s.queue[c][1..]]), Delivered(s.queue[c][0]))
    else if c in s.closed then
      (s, Drained)
    else
      (s, Waiting)
  }

  /** The events the manager and the write pumps act on. */
  datatype Event =
    | Register(client: ClientId)
    | Unregister(client: ClientId)
    | Broadcast(message: Envelope)
    | Receive(client: ClientId)

  function Step(s: HubState, e: Event): HubState {
    match e
    case Register(c) => RegisterStep(s, c)
    case Unregister(c) => UnregisterStep(s, c)
    case Broadcast(m) => BroadcastStep(s, m)
    case Receive(c) => ReceiveStep(s, c).0
  }

  /** Only a client with an open channel is ever registered: `wsPage` registers each
      client once, right after making its channel (main.go:145-146). */
  predicate Allowed(s: HubState, e: Event) {
    e.Register? ==> e.client !in s.closed
  }

  /** Visiting one more client in the fan-out loop touches that client's queue only. */
  lemma SendToVisit(s: HubState, m: Envelope, ignore: ClientId, visited: set<ClientId>, c: ClientId)
    requires c in s.live && c in s.queue && c !in visited
    ensures SendTo(s, m, ignore, visited + {c}) ==
              var t := SendTo(s, m, ignore, visited);
              if c != ignore then t.(queue := t.queue[c := s.queue[c] + [m]]) else t
  {
    var t := SendTo(s, m, ignore, visited);
    var u := SendTo(s, m, ignore, visited + {c});
    if c != ignore {
      assert u.queue == t.queue[c := s.queue[c] + [m]];
    } else {
      assert u.queue == t.queue;
    }
  }

  /** Visiting one more client in the broadcast loop touches that client only. */
  lemma OfferToVisit(s: HubState, m: Envelope, visited: set<ClientId>, c: ClientId)
    requires c in s.live && c in s.queue && c !in visited
    ensures OfferTo(s, m, visited + {c}) ==
              var t := OfferTo(s, m, visited);
              if Full(s, c) then t.(live := t.live - {c}, closed := t.closed + {c})
              else t.(queue := t.queue[c := s.queue[c] + [m]])
  {
    var t := OfferTo(s, m, visited);
    var u := OfferTo(s, m, visited + {c});
    if Full(s, c) {
      assert Evicted(s, visited + {c}) == Evicted(s, visited) + {c};
      assert u.queue == t.queue;
    } else {
      assert Evicted(s, visited + {c}) == Evicted(s, visited);
      assert u.queue == t.queue[c := s.queue[c] + [m]];
    }
  }

  /** A client the broadcast loop has not reached yet is as it was. */
  lemma OfferToUnvisited(s: HubState, m: Envelope, visited: set<ClientId>, c: ClientId)
    requires Consistent(s) && c in s.live && c !in visited
    ensures var t := OfferTo(s, m, visited);
            c in t.live && c in t.queue && c !in t.closed && t.queue[c] == s.queue[c]
  {
  }

  /** The broadcast loop keeps the manager consistent at every point. */
  lemma OfferToConsistent(s: HubState, m: Envelope, visited: set<ClientId>)
    requires Consistent(s)
    ensures Consistent(OfferTo(s, m, visited))
  {
    var t := OfferTo(s, m, visited);
    assert t.queue.Keys == s.queue.Keys;
  }
}
