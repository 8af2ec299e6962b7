/** Runs of the manager: the events reach the handler one at a time, in arrival
    order, so any history of the manager is a sequence of steps. */
module Traces {
  import opened Envelopes
  import opened Hub
  import opened HubProperties

  /** The state after handling `evs`, in order, from `s`. */
  function Run(s: HubState, evs: seq<Event>): HubState
    decreases |evs|
  {
    if evs == [] then s else Step(Run(s, evs[..|evs| - 1]), evs[|evs| - 1])
  }

  /** Every event is allowed in the state it meets. */
  predicate Admissible(s: HubState, evs: seq<Event>)
    decreases |evs|
  {
    evs == [] || (Admissible(s, evs[..|evs| - 1]) && Allowed(Run(s, evs[..|evs| - 1]), evs[|evs| - 1]))
  }

  /** The clients `evs` registers. */
  function Registered(evs: seq<Event>): set<ClientId> {
    set i | 0 <= i < |evs| && evs[i].Register? :: evs[i].client
  }

  /** `c` was registered in `evs` and not unregistered after its last registration. */
  ghost predicate Pending(evs: seq<Event>, c: ClientId) {
    exists i :: 0 <= i < |evs| && evs[i] == Register(c) &&
      forall j :: i < j < |evs| ==> evs[j] != Unregister(c)
  }

  /** Consistency holds after every admissible run. */
  lemma {:induction false} RunPreservesConsistent(s: HubState, evs: seq<Event>)
    requires Consistent(s) && Admissible(s, evs)
    ensures Consistent(Run(s, evs))
    decreases |evs|
  {
    if evs != [] {
      var prefix := evs[..|evs| - 1];
      RunPreservesConsistent(s, prefix);
      StepPreservesConsistent(Run(s, prefix), evs[|evs| - 1]);
    }
  }

  /** Only a register adds a channel to those the manager knows, and nothing removes one. */
  lemma StepKnown(t: HubState, e: Event)
    ensures Step(t, e).queue.Keys == t.queue.Keys + (if e.Register? then {e.client} else {})
  {
    if e.Broadcast? {
      assert BroadcastStep(t, e.message).queue.Keys == t.queue.Keys;
    }
  }

  /** The clients registered by `evs + [e]`. */
  lemma RegisteredAfter(evs: seq<Event>, e: Event)
    ensures Registered(evs + [e]) == Registered(evs) + (if e.Register? then {e.client} else {})
  {
    var all := evs + [e];
    assert forall i :: 0 <= i < |evs| ==> all[i] == evs[i];
    assert all[|evs|] == e;
  }

  /** The manager knows exactly the clients that were registered. */
  lemma {:induction false} KnownAreRegistered(capacity: nat, evs: seq<Event>)
    ensures Run(Init(capacity), evs).queue.Keys == Registered(evs)
    decreases |evs|
  {
    if evs != [] {
      var prefix, e := evs[..|evs| - 1], evs[|evs| - 1];
      assert evs == prefix + [e];
      KnownAreRegistered(capacity, prefix);
      RegisteredAfter(prefix, e);
      StepKnown(Run(Init(capacity), prefix), e);
    }
  }

  /** After any admissible run from the empty manager, a client is live exactly when
      it was registered and its channel has not been closed. */
  lemma {:induction false} LiveAreRegisteredAndOpen(capacity: nat, evs: seq<Event>)
    requires Admissible(Init(capacity), evs)
    ensures Run(Init(capacity), evs).live == Registered(evs) - Run(Init(capacity), evs).closed
  {
    RunPreservesConsistent(Init(capacity), evs);
    KnownAreRegistered(capacity, evs);
  }

  /** Events that only register, unregister or drain: no broadcast, so no eviction. */
  predicate MembershipOnly(evs: seq<Event>) {
    forall i :: 0 <= i < |evs| ==> !evs[i].Broadcast?
  }

  /** How one more event changes whether `c` is pending. */
  lemma PendingAfter(evs: seq<Event>, e: Event, c: ClientId)
    ensures Pending(evs + [e], c) <==> e == Register(c) || (e != Unregister(c) && Pending(evs, c))
  {
    var all := evs + [e];
    if e == Register(c) {
      assert all[|evs|] == Register(c);
    } else if e != Unregister(c) {
      if Pending(evs, c) {
        var i :| 0 <= i < |evs| && evs[i] == Register(c) &&
          forall j :: i < j < |evs| ==> evs[j] != Unregister(c);
        assert all[i] == Register(c);
        forall j | i < j < |all| ensures all[j] != Unregister(c) {
          if j < |evs| {
            assert all[j] == evs[j];
          }
        }
      }
      if Pending(all, c) {
        var i :| 0 <= i < |all| && all[i] == Register(c) &&
          forall j :: i < j < |all| ==> all[j] != Unregister(c);
        assert i < |evs| && evs[i] == Register(c);
        assert forall j :: i < j < |evs| ==> evs[j] == all[j];
      }
    } else {
      forall i | 0 <= i < |all| && all[i] == Register(c)
        ensures exists j :: i < j < |all| && all[j] == Unregister(c)
      {
        assert all[|evs|] == Unregister(c);
      }
    }
  }

  /** With no broadcasts, the live set is the set of clients registered and not
      unregistered since. */
  lemma {:induction false} LiveArePending(s: HubState, evs: seq<Event>, c: ClientId)
    requires s.live == {} && MembershipOnly(evs)
    ensures c in Run(s, evs).live <==> Pending(evs, c)
    decreases |evs|
  {
    if evs != [] {
      var n := |evs| - 1;
      var prefix, e := evs[..n], evs[n];
      assert evs == prefix + [e];
      assert MembershipOnly(prefix) by {
        assert forall i :: 0 <= i < |prefix| ==> prefix[i] == evs[i];
      }
      LiveArePending(s, prefix, c);
      PendingAfter(prefix, e, c);
    }
  }

  /** Handling `a` and then `b` is handling `a + b`. */
  lemma {:induction false} RunAppend(s: HubState, a: seq<Event>, b: seq<Event>)
    ensures Run(s, a + b) == Run(Run(s, a), b)
    decreases |b|
  {
    if b == [] {
      assert a + b == a;
    } else {
      var front := b[..|b| - 1];
      assert (a + b)[..|a + b| - 1] == a + front;
      assert (a + b)[|a + b| - 1] == b[|b| - 1];
      RunAppend(s, a, front);
    }
  }

  /** A history is admissible exactly when its first part is, and its second part is
      from the state the first part leaves. */
  lemma {:induction false} AdmissibleAppend(s: HubState, a: seq<Event>, b: seq<Event>)
    ensures Admissible(s, a + b) <==> Admissible(s, a) && Admissible(Run(s, a), b)
    decreases |b|
  {
    if b == [] {
      assert a + b == a;
    } else {
      var front := b[..|b| - 1];
      assert (a + b)[..|a + b| - 1] == a + front;
      assert (a + b)[|a + b| - 1] == b[|b| - 1];
      AdmissibleAppend(s, a, front);
      RunAppend(s, a, front);
    }
  }

  /** Two unregisters of the same client with nothing between them have the effect
      of one. */
  lemma DoubleUnregisterIsSingle(s: HubState, evs: seq<Event>, c: ClientId)
    ensures Run(s, evs + [Unregister(c), Unregister(c)]) == Run(s, evs + [Unregister(c)])
  {
    var once := evs + [Unregister(c)];
    var twice := once + [Unregister(c)];
    assert twice == evs + [Unregister(c), Unregister(c)];
    assert twice[..|twice| - 1] == once;
    assert once[..|once| - 1] == evs;
    UnregisterIdempotent(Run(s, evs), c);
  }

  /** A closed channel stays closed and its client never comes back to the live set
      in an admissible history. */
  lemma {:induction false} ClosedStaysClosed(s: HubState, evs: seq<Event>, c: ClientId)
    requires Consistent(s) && Admissible(s, evs) && c in s.closed
    ensures c in Run(s, evs).closed && c !in Run(s, evs).live
    decreases |evs|
  {
    if evs != [] {
      var prefix := evs[..|evs| - 1];
      ClosedStaysClosed(s, prefix, c);
      RunPreservesConsistent(s, prefix);
      ClosedChannelOnlyDrains(Run(s, prefix), evs[|evs| - 1], c);
    }
  }

  /** No event but a register adds a client to the live set: across any history a
      live client was live at the start or was registered along the way. */
  lemma {:induction false} LiveOnlyThroughRegister(s: HubState, evs: seq<Event>, c: ClientId)
    requires c in Run(s, evs).live
    ensures c in s.live || exists i :: 0 <= i < |evs| && evs[i] == Register(c)
    decreases |evs|
  {
    if evs != [] {
      var n := |evs| - 1;
      var prefix, e := evs[..n], evs[n];
      var t := Run(s, prefix);
      if e == Register(c) {
        assert evs[n] == Register(c);
      } else {
        if e.Broadcast? {
          assert BroadcastStep(t, e.message).live <= t.live;
        }
        assert c in t.live;
        LiveOnlyThroughRegister(s, prefix, c);
        if !(c in s.live) {
          var i :| 0 <= i < |prefix| && prefix[i] == Register(c);
          assert evs[i] == Register(c);
        }
      }
    }
  }

  /** Over any admissible history, nothing is put on a channel that was closed at
      the start: its queue only loses messages from the front, as its write pump
      takes them. */
  lemma {:induction false} ClosedQueueOnlyDrains(s: HubState, evs: seq<Event>, c: ClientId)
    requires Consistent(s) && Admissible(s, evs) && c in s.closed
    ensures c in Run(s, evs).queue
    ensures exists k :: 0 <= k <= |s.queue[c]| && Run(s, evs).queue[c] == s.queue[c][k..]
    decreases |evs|
  {
    if evs == [] {
      assert s.queue[c] == s.queue[c][0..];
    } else {
      var prefix, e := evs[..|evs| - 1], evs[|evs| - 1];
      ClosedQueueOnlyDrains(s, prefix, c);
      ClosedStaysClosed(s, prefix, c);
      RunPreservesConsistent(s, prefix);
      var t := Run(s, prefix);
      var k :| 0 <= k <= |s.queue[c]| && t.queue[c] == s.queue[c][k..];
      ClosedChannelOnlyDrains(t, e, c);
      if Step(t, e).queue[c] != t.queue[c] {
        assert t.queue[c] != [] && Step(t, e).queue[c] == t.queue[c][1..];
        assert s.queue[c][k..][1..] == s.queue[c][k + 1..];
      }
    }
  }

  /** A client that is not live at the start and that no event of the history names
      keeps its queue, its closed flag and its absence from the live set. */
  lemma {:induction false} UnnamedClientUntouched(s: HubState, evs: seq<Event>, c: ClientId)
    requires Consistent(s) && Admissible(s, evs) && c !in s.live
    requires forall i :: 0 <= i < |evs| ==> c !in Subject(evs[i])
    ensures var r := Run(s, evs);
            && c !in r.live
            && (c in r.queue <==> c in s.queue)
            && (c in s.queue ==> r.queue[c] == s.queue[c])
            && (c in r.closed <==> c in s.closed)
    decreases |evs|
  {
    if evs != [] {
      var prefix, e := evs[..|evs| - 1], evs[|evs| - 1];
      assert forall i :: 0 <= i < |prefix| ==> prefix[i] == evs[i];
      UnnamedClientUntouched(s, prefix, c);
      RunPreservesConsistent(s, prefix);
      StepLeavesBystandersAlone(Run(s, prefix), e, c);
    }
  }

  /** A client evicted by a broadcast never causes a left notice. Its read pump's
      unregister comes only after the write pump has seen the closed channel and shut
      the socket (main.go:118-128, then main.go:105-107), so any admissible events may
      be handled first; the unregister still finds the client gone and does nothing. */
  lemma EvictedClientStaysSilent(s: HubState, m: Envelope, b: seq<Event>, c: ClientId)
    requires Consistent(s) && c in s.live && Full(s, c)
    requires Admissible(BroadcastStep(s, m), b)
    ensures UnregisterStep(Run(BroadcastStep(s, m), b), c) == Run(BroadcastStep(s, m), b)
  {
    OfferToConsistent(s, m, s.live);
    ClosedStaysClosed(BroadcastStep(s, m), b, c);
  }

  /** The read pump of a registered client sends its unregister twice (main.go:107,
      then main.go:100 after closing the socket), and any events of other clients,
      and receives of its own write pump, may be handled in between. The second
      unregister then changes nothing: the first one left the client closed, and a
      closed client stays out of the live set. */
  lemma ReadPumpUnregistersActOnce(s: HubState, a: seq<Event>, b: seq<Event>, c: ClientId)
    requires Consistent(s) && Admissible(s, a + [Unregister(c)] + b)
    requires c in Run(s, a).queue
    ensures Run(s, a + [Unregister(c)] + b + [Unregister(c)]) == Run(s, a + [Unregister(c)] + b)
  {
    var first := a + [Unregister(c)];
    var hist := first + b;
    AdmissibleAppend(s, first, b);
    AdmissibleAppend(s, a, [Unregister(c)]);
    RunPreservesConsistent(s, a);
    assert first[..|first| - 1] == a;
    var t := Run(s, first);
    assert t == UnregisterStep(Run(s, a), c);
    assert c in t.closed;
    RunPreservesConsistent(s, first);
    ClosedStaysClosed(t, b, c);
    RunAppend(s, first, b);
    assert (hist + [Unregister(c)])[..|hist|] == hist;
    UnregisterAbsentIsNoop(Run(s, hist), c);
  }
}
