# Client manager of a websocket chat hub, modelled in Dafny

The program is a chat server. Each websocket client gets a UUID and an outbound
`send` channel. A single goroutine, the client manager (`ClientManager.start`),
owns the map of live clients and handles three events one at a time:

- **register**: add the client, then tell every other live client that a socket
  connected;
- **unregister**: only if the client is live, close its channel, remove it, then
  tell the remaining clients that a socket disconnected;
- **broadcast**: offer the message to every live client with a non-blocking send.
  A client whose channel cannot take the message has its channel closed and is
  removed on the spot, with no notice to anyone.

The notices are fanned out by the helper `ClientManager.send`. It performs a
blocking send to every live client except the one it is told to ignore.

The model has two layers.

- Module `Hub` is the handler as a state machine over values. The state
  `HubState` holds the live set, the pending messages on each channel the manager
  has been handed, the set of closed channels and the channel capacity. There is
  one step function per event. There is also a receive step, which stands for a
  client's write pump taking a message off its channel.
- Module `Manager` holds the class `ClientManager`. Its fields are updated in
  place. Its `Send` and `Broadcast` methods loop over the live set, as the Go
  code does. Each event method is proved to produce exactly the matching step of
  `Hub`. Closing a channel and sending on one are helper methods that require the
  channel to be open, because Go panics otherwise. So every close and every send
  in the handler is proved to meet Go's rule, and in particular no channel is
  closed twice.

Module `HubProperties` states what each step does and what it leaves alone.
Module `Traces` lifts the invariants to whole histories of events. Module
`Scenarios` works through concrete histories with two to four clients.
Messages are the envelope `{sender, recipient, content}` of module `Envelopes`.
Their JSON encoding is not modelled.

Two consequences of the code that are easy to miss:

- The relay at main.go:76-84 excludes no one, so the sender gets its own message
  back (`Scenarios.RelayReachesEveryone`).
- A broadcast evicts a client without a leave notice. The unregister that the
  client's read pump sends later finds it gone and does nothing, so the remaining
  clients never hear that it left (`Traces.EvictedClientStaysSilent`).

## Model

| member | source | states |
|---|---|---|
| `Envelopes.NoticesAreDistinguishable` | main.go:111 | a relay from a client with a non-empty id carries a sender; the joined and left notices carry none and differ from each other |
| `Hub.SendToVisit` | main.go:91-95 | one more iteration of the fan-out loop appends the message to the visited client's queue, unless it is the ignored client, and changes nothing else |
| `Hub.OfferToVisit` | main.go:78-83 | one more iteration of the broadcast loop appends the message to the visited client if its channel has room; otherwise it closes that client's channel and removes it; nothing else changes |
| `Hub.OfferToUnvisited` | main.go:77-84 | a client the broadcast loop has not reached yet is still live and open, with its queue as before |
| `Hub.OfferToConsistent` | main.go:77-84 | every intermediate state of the broadcast loop keeps "live exactly when registered and not closed" |
| `Manager.ClientManager.constructor` | main.go:44-49 | the manager starts with no clients, no channels and no closed channels |
| `Manager.ClientManager.CloseChannel` | main.go:67-81 | `close(conn.send)`, at main.go:67 and at main.go:81, is only ever applied to an open channel of a known client, and marks it closed |
| `Manager.ClientManager.Put` | main.go:93 | the blocking send is only ever applied to an open channel, and appends the message to that channel's queue only |
| `Manager.ClientManager.TryPut` | main.go:78-80 | the non-blocking send succeeds exactly when the channel has fewer pending messages than its capacity, and then appends the message; otherwise nothing changes |
| `Manager.ClientManager.Send` | main.go:90-96 | the loop leaves the state equal to `SendStep`: every live client except `ignore` has the message appended once; consistency is kept |
| `Manager.ClientManager.Register` | main.go:57-60 | for a client whose channel is open, the new state equals `RegisterStep` and consistency is kept |
| `Manager.ClientManager.Unregister` | main.go:65-71 | the new state equals `UnregisterStep`: close, delete and left notice only for a live client, nothing otherwise; consistency is kept |
| `Manager.ClientManager.Broadcast` | main.go:76-84 | the loop leaves the state equal to `BroadcastStep`, with full channels closed and their clients removed; consistency is kept |
| `Manager.ClientManager.Receive` | main.go:121 | one receive of the write pump equals `ReceiveStep`: the oldest pending message, or "would block" on an open empty channel, or "done" on a closed empty one |
| `HubProperties.SendDeliversToAllButIgnored` | main.go:90-96 | every live client other than `ignore` gets the message appended exactly once; `ignore`, clients outside the live set, the live set and the closed set are untouched |
| `HubProperties.RegisterAnnouncesToOthers` | main.go:57-60 | the client becomes live with its own queue unchanged (empty if fresh); every other live client gets exactly one joined notice; no channel is closed; non-live clients are untouched |
| `HubProperties.UnregisterLiveAnnouncesToRest` | main.go:65-71 | a live client's channel goes from open to closed and the client leaves the live set with its queue unchanged; every remaining live client gets exactly one left notice |
| `HubProperties.UnregisterAbsentIsNoop` | main.go:66 | unregistering a client that is not live changes nothing at all |
| `HubProperties.UnregisterIdempotent` | main.go:65-71 | two consecutive unregisters of the same client have the effect of one |
| `HubProperties.BroadcastDeliversOrEvicts` | main.go:76-84 | every client live before the broadcast is then either live and open with the message appended once, or removed with its channel closed and its queue unchanged; the second happens exactly when its channel was full; no client is added, no notice is sent, non-live clients are untouched |
| `HubProperties.EvictedClientLeavesSilently` | main.go:80-83 | if the event right after the evicting broadcast is an unregister of the evicted client, it does nothing; `Traces.EvictedClientStaysSilent` covers any events in between |
| `HubProperties.StepPreservesConsistent` | main.go:57-84 | every event keeps the invariant that a client is live exactly when it was registered and its channel is not closed |
| `HubProperties.ClosingOnlyWithRemoval` | main.go:66-82 | closed channels stay closed; the channels an event closes are exactly the clients it removes from the live set, and each of them was a known channel that was still open (that no call closes an already closed channel is proved at the calls of `CloseChannel`) |
| `HubProperties.StepLeavesBystandersAlone` | main.go:57-84 | no event changes the queue, closed flag or membership of a client that is neither live nor named by the event |
| `HubProperties.ClosedChannelOnlyDrains` | main.go:57-84 | nothing is ever put on a closed channel; only its own write pump's receive takes its oldest message |
| `HubProperties.ReceiveTakesOldestFirst` | main.go:121 | a receive takes the oldest pending message of its own channel; every other channel's queue, the live set and the closed set are unchanged; it reports "done" exactly on a closed empty channel |
| `Traces.RunPreservesConsistent` | main.go:51-88 | consistency holds after every history of events in which no closed client is registered again |
| `Traces.StepKnown` | main.go:57-84 | only a register adds a channel to those the manager knows, and no event removes one, not even an unregister or an eviction |
| `Traces.KnownAreRegistered` | main.go:57-58 | from the empty manager, the channels the manager knows are exactly those of the registered clients |
| `Traces.LiveAreRegisteredAndOpen` | main.go:51-88 | from the empty manager, after any such history, the live set is the set of registered clients minus those whose channel was closed |
| `Traces.PendingAfter` | main.go:57-71 | a register event makes a client pending; an unregister of it ends that; any other event leaves it as it was |
| `Traces.LiveArePending` | main.go:57-71 | in a history without broadcasts that starts with no live clients, a client is live exactly when it was registered and not unregistered since |
| `Traces.RunAppend` | main.go:51-88 | events are handled one at a time, in order, so handling a history split in two is handling its first part and then its second from the state the first leaves |
| `Traces.AdmissibleAppend` | main.go:51-88 | a history is admissible exactly when its first part is and its second part is admissible from the state the first leaves |
| `Traces.DoubleUnregisterIsSingle` | main.go:65-71 | in any history, two consecutive unregisters of the same client have the effect of one |
| `Traces.ReadPumpUnregistersActOnce` | main.go:98-109 | for a registered client, the second of the read pump's two unregisters (main.go:107, then main.go:100) changes nothing, whatever events are handled between them |
| `Traces.EvictedClientStaysSilent` | main.go:80-83 | after a client is evicted by a broadcast, its read pump's unregister (main.go:105-107) does nothing whatever admissible events are handled before it, so no left notice is ever sent for it |
| `Traces.ClosedStaysClosed` | main.go:66-82 | once a client's channel is closed it stays closed and the client never returns to the live set |
| `Traces.LiveOnlyThroughRegister` | main.go:57-84 | across any history, a live client was live at the start or was registered along the way; unregister and broadcast never add clients |
| `Traces.ClosedQueueOnlyDrains` | main.go:66-82 | across any history, a channel closed at the start only loses messages from its front; nothing is ever sent on it again |
| `Traces.UnnamedClientUntouched` | main.go:57-84 | a client that is not live and that no event names keeps its queue, its closed flag and its absence from the live set across the whole history |
| `Scenarios.ThreeJoinedState` | main.go:57-60 | after A, B and C register, A holds two joined notices, B one, and C none |
| `Scenarios.RelayReachesEveryone` | main.go:76-84 | A's relay reaches B, C and A itself when the channels have room |
| `Scenarios.LeaveIsAnnounced` | main.go:65-71 | when B unregisters, A and C each get one left notice and B's channel is closed |
| `Scenarios.JoinIsNotEchoed` | main.go:57-60 | when D registers after A, B and C, each of them gets one joined notice and D gets none |
| `Scenarios.EvictionIsSilent` | main.go:76-84 | with room for one message, A is evicted by its own relay while B receives it; A's later unregister changes nothing |

## Left out

- Goroutines, channel blocking and `select` scheduling (main.go:51-53, 148-149, 154): each event is one atomic step. The model does not capture that the blocking send at main.go:93 can stall, or deadlock, the manager while a client's writer is not reading.
- Manager.ClientManager.Put: the blocking send is modelled as completed, so a queue may hold more messages than the capacity; only the non-blocking send at main.go:79 tests the capacity.
- Channel readiness: Go's channels here are unbuffered (main.go:145), so a non-blocking send succeeds only when the writer happens to be waiting. The model stands for this with one capacity, a parameter of the manager, and the number of messages the write pump has not taken yet.
- Client identity: Go keys the map by `*Client`; the model keys it by the client's UUID, which is unique per client.
- Manager.ClientManager.Register: requires the client's channel to be open. Each client is registered once, right after its channel is made (main.go:145-146). Registering a client whose channel is closed would make a later send on it panic.
- The websocket upgrade, HTTP routing and start-up (`wsPage`, `main`, main.go:132-157): I/O through external libraries.
- The socket pumps `Client.read` and `Client.write` (main.go:98-130): socket I/O. Their effects on the manager are the events they issue and `Receive`, which takes one message off a channel.
- UUID generation (main.go:139-144): a foreign library call.
- JSON marshalling of `Message` (main.go:37-41, 59, 69, 111): library code; the model handles `Envelope` values. The struct tag at main.go:38 (`json: "sender,omitempty"`) is malformed, so Go ignores it: the field is encoded as `Sender` and without `omitempty`, so every system notice carries `"Sender":""`. The wire format is not modelled.
