/** Concrete histories of the manager with three or four clients. */
module Scenarios {
  import opened Envelopes
  import opened Hub

  /** A, B and C register in that order. */
  function ThreeJoined(capacity: nat): HubState {
    RegisterStep(RegisterStep(RegisterStep(Init(capacity), "A"), "B"), "C")
  }

  /** After the three registrations each earlier client holds one joined notice per
      later one, and C, the last, holds none. */
  lemma ThreeJoinedState(capacity: nat)
    ensures var s := ThreeJoined(capacity);
            && s.live == {"A", "B", "C"} && s.closed == {} && s.queue.Keys == {"A", "B", "C"}
            && s.queue["A"] == [JoinedNotice, JoinedNotice]
            && s.queue["B"] == [JoinedNotice]
            && s.queue["C"] == []
  {
    var s1 := RegisterStep(Init(capacity), "A");
    assert s1.live == {"A"} && s1.queue.Keys == {"A"} && s1.queue["A"] == [];
    var s2 := RegisterStep(s1, "B");
    assert s2.live == {"A", "B"} && s2.queue.Keys == {"A", "B"};
    assert s2.queue["A"] == [JoinedNotice] && s2.queue["B"] == [];
    var s3 := RegisterStep(s2, "C");
    assert s3.queue.Keys == {"A", "B", "C"};
  }

  /** A's read pump relays "hi": B and C get the relay, and so does A itself, since
      the relay excludes no one. */
  lemma RelayReachesEveryone(capacity: nat)
    requires capacity >= 3
    ensures var s := BroadcastStep(ThreeJoined(capacity), Relay("A", "hi"));
            && s.live == {"A", "B", "C"} && s.closed == {}
            && s.queue["A"] == [JoinedNotice, JoinedNotice, Relay("A", "hi")]
            && s.queue["B"] == [JoinedNotice, Relay("A", "hi")]
            && s.queue["C"] == [Relay("A", "hi")]
  {
    var s3 := ThreeJoined(capacity);
    ThreeJoinedState(capacity);
    assert !Full(s3, "A") && !Full(s3, "B") && !Full(s3, "C");
    assert Evicted(s3, s3.live) == {};
    var r := BroadcastStep(s3, Relay("A", "hi"));
    assert r.live == s3.live && r.closed == {};
    assert r.queue["A"] == s3.queue["A"] + [Relay("A", "hi")];
    assert r.queue["B"] == s3.queue["B"] + [Relay("A", "hi")];
    assert r.queue["C"] == s3.queue["C"] + [Relay("A", "hi")];
  }

  /** B unregisters: A and C each get one left notice, B's channel is closed with
      its queue untouched, and B is out of every later fan-out. */
  lemma LeaveIsAnnounced(capacity: nat)
    ensures var s3 := ThreeJoined(capacity);
            var s := UnregisterStep(s3, "B");
            && s.live == {"A", "C"} && s.closed == {"B"}
            && s.queue["A"] == s3.queue["A"] + [LeftNotice]
            && s.queue["B"] == s3.queue["B"]
            && s.queue["C"] == s3.queue["C"] + [LeftNotice]
  {
    ThreeJoinedState(capacity);
  }

  /** D registers after A, B and C: each of them gets one joined notice and D gets
      none of its own. */
  lemma JoinIsNotEchoed(capacity: nat)
    ensures var s3 := ThreeJoined(capacity);
            var s := RegisterStep(s3, "D");
            && s.live == {"A", "B", "C", "D"}
            && s.queue["A"] == s3.queue["A"] + [JoinedNotice]
            && s.queue["B"] == s3.queue["B"] + [JoinedNotice]
            && s.queue["C"] == s3.queue["C"] + [JoinedNotice]
            && s.queue["D"] == []
  {
    ThreeJoinedState(capacity);
  }

  /** With room for one pending message, A (still holding B's joined notice) is
      evicted by its own relay while B gets it; the unregister A's read pump sends
      afterwards does nothing, so B never hears that A left. */
  lemma EvictionIsSilent()
    ensures var s2 := RegisterStep(RegisterStep(Init(1), "A"), "B");
            var s3 := BroadcastStep(s2, Relay("A", "hi"));
            && s3.live == {"B"} && s3.closed == {"A"}
            && s3.queue["A"] == [JoinedNotice]
            && s3.queue["B"] == [Relay("A", "hi")]
            && UnregisterStep(s3, "A") == s3
  {
    var s1 := RegisterStep(Init(1), "A");
    assert s1.live == {"A"} && s1.queue.Keys == {"A"} && s1.queue["A"] == [];
    var s2 := RegisterStep(s1, "B");
    assert s2.live == {"A", "B"} && s2.queue.Keys == {"A", "B"};
    assert s2.queue["A"] == [JoinedNotice] && s2.queue["B"] == [];
    assert Evicted(s2, s2.live) == {"A"};
  }
}
