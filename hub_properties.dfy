/** What each event does to the manager's state, and what it leaves alone. */
module HubProperties {
  import opened Envelopes
  import opened Hub

  /** `send(m, ignore)` appends `m` exactly once to every live client but `ignore`,
      and touches nothing else: not `ignore`'s queue, not a client outside the live
      set, not the live set, not a channel's closed flag. */
  lemma SendDeliversToAllButIgnored(s: HubState, m: Envelope, ignore: ClientId)
    requires Consistent(s)
    ensures var r := SendStep(s, m, ignore);
            && r.capacity == s.capacity && r.live == s.live && r.closed == s.closed
            && r.queue.Keys == s.queue.Keys
            && (forall c :: c in s.live && c != ignore ==> r.queue[c] == s.queue[c] + [m])
            && (forall c :: c in s.queue && (c !in s.live || c == ignore) ==> r.queue[c] == s.queue[c])
  {
  }

  /** The register case: `c` becomes live with its own queue as it was (a fresh
      client's is empty), every other live client gets exactly one joined notice, and
      nothing else changes. */
  lemma RegisterAnnouncesToOthers(s: HubState, c: ClientId)
    requires Consistent(s) && c !in s.closed
    ensures var r := RegisterStep(s, c);
            && r.live == s.live + {c} && r.closed == s.closed
            && r.queue.Keys == s.queue.Keys + {c}
            && r.queue[c] == (if c in s.queue then s.queue[c] else [])
            && (forall d :: d in s.live && d != c ==> r.queue[d] == s.queue[d] + [JoinedNotice])
            && (forall d :: d in s.queue && d !in s.live && d != c ==> r.queue[d] == s.queue[d])
  {
  }

  /** The unregister case for a live client: its channel goes from open to closed,
      it leaves the live set, its queue keeps what it had, and every remaining live
      client gets exactly one left notice. */
  lemma UnregisterLiveAnnouncesToRest(s: HubState, c: ClientId)
    requires Consistent(s) && c in s.live
    ensures var r := UnregisterStep(s, c);
            && c !in s.closed && r.closed == s.closed + {c}
            && r.live == s.live - {c}
            && r.queue.Keys == s.queue.Keys && r.queue[c] == s.queue[c]
            && (forall d :: d in r.live ==> r.queue[d] == s.queue[d] + [LeftNotice])
            && (forall d :: d in s.queue && d !in s.live ==> r.queue[d] == s.queue[d])
  {
  }

  /** The unregister case for a client that is not live changes nothing: no channel
      is closed, no client removed, no notice sent. */
  lemma UnregisterAbsentIsNoop(s: HubState, c: ClientId)
    requires c !in s.live
    ensures UnregisterStep(s, c) == s
  {
  }

  /** Two unregisters of the same client in a row have the effect of one; see
      `Traces.ReadPumpUnregistersActOnce` for events handled in between. */
  lemma UnregisterIdempotent(s: HubState, c: ClientId)
    ensures UnregisterStep(UnregisterStep(s, c), c) == UnregisterStep(s, c)
  {
  }

  /** The broadcast case: every client live before ends up either still live, its
      channel open, with `m` appended once, or removed with its channel closed and
      its queue as it was, and the second happens exactly when its channel was full.
      No one is excluded, no one is added, no notice is sent, and clients outside
      the live set are not touched. */
  lemma BroadcastDeliversOrEvicts(s: HubState, m: Envelope)
    requires Consistent(s)
    ensures var r := BroadcastStep(s, m);
            && r.live <= s.live
            && r.queue.Keys == s.queue.Keys
            && r.closed - s.closed == s.live - r.live
            && (forall c :: c in s.live ==> (c !in r.live <==> Full(s, c)))
            && (forall c :: c in r.live ==> c !in r.closed && r.queue[c] == s.queue[c] + [m])
            && (forall c :: c in s.live && c !in r.live ==> c in r.closed && r.queue[c] == s.queue[c])
            && (forall c :: c in s.queue && c !in s.live ==> r.queue[c] == s.queue[c] && c in r.closed)
  {
  }

  /** A client evicted by a broadcast never causes a left notice: the unregister its
      read pump sends once its socket dies finds it gone and does nothing. */
  lemma EvictedClientLeavesSilently(s: HubState, m: Envelope, c: ClientId)
    requires Consistent(s) && c in s.live && Full(s, c)
    ensures UnregisterStep(BroadcastStep(s, m), c) == BroadcastStep(s, m)
  {
  }

  /** Every step keeps a client live exactly when it was registered and its channel
      is still open. */
  lemma StepPreservesConsistent(s: HubState, e: Event)
    requires Consistent(s) && Allowed(s, e)
    ensures Consistent(Step(s, e))
  {
    match e
    case Broadcast(m) => OfferToConsistent(s, m, s.live);
    case _ =>
  }

  /** A channel is closed only together with its client's removal from the live set,
      and only while it was a known, open channel; a closed channel stays closed. */
  lemma ClosingOnlyWithRemoval(s: HubState, e: Event)
    requires Consistent(s) && Allowed(s, e)
    ensures var r := Step(s, e);
            && s.closed <= r.closed
            && r.closed - s.closed == s.live - r.live
            && r.closed - s.closed <= s.queue.Keys - s.closed
  {
    if e.Broadcast? {
      BroadcastDeliversOrEvicts(s, e.message);
    }
  }

  /** The client an event names, if any. */
  function Subject(e: Event): set<ClientId> {
    if e.Broadcast? then {} else {e.client}
  }

  /** No step changes the queue or the closed flag of a client that is neither live
      nor named by the event. */
  lemma StepLeavesBystandersAlone(s: HubState, e: Event, c: ClientId)
    requires Consistent(s)
    requires c !in s.live && c !in Subject(e)
    ensures var r := Step(s, e);
            && c !in r.live
            && (c in r.queue <==> c in s.queue)
            && (c in s.queue ==> r.queue[c] == s.queue[c])
            && (c in r.closed <==> c in s.closed)
  {
    if e.Broadcast? {
      BroadcastDeliversOrEvicts(s, e.message);
    }
  }

  /** Nothing is ever put on a closed channel (Go would panic): a step leaves a
      closed channel's queue as it was, except the receive of its own write pump,
      which takes the oldest message. */
  lemma ClosedChannelOnlyDrains(s: HubState, e: Event, c: ClientId)
    requires Consistent(s) && Allowed(s, e) && c in s.closed
    ensures var r := Step(s, e);
            && c in r.closed && c !in r.live && c in r.queue
            && (r.queue[c] == s.queue[c]
                || (e == Receive(c) && s.queue[c] != [] && r.queue[c] == s.queue[c][1..]))
  {
    if e.Broadcast? {
      BroadcastDeliversOrEvicts(s, e.message);
    }
  }

  /** The write pump takes messages in the order they were put, and only once its
      channel is closed and empty does its loop end. */
  lemma ReceiveTakesOldestFirst(s: HubState, c: ClientId)
    requires Consistent(s)
    ensures var (r, d) := ReceiveStep(s, c);
            && r.live == s.live && r.closed == s.closed && r.queue.Keys == s.queue.Keys
            && (d.Delivered? <==> c in s.queue && s.queue[c] != [])
            && (d.Delivered? ==> [d.message] + r.queue[c] == s.queue[c])
            && (d.Drained? <==> c in s.closed && s.queue[c] == [])
            && (!d.Delivered? ==> r == s)
            && (forall e :: e in s.queue && e != c ==> r.queue[e] == s.queue[e])
  {
  }
}
