/** The message envelope the hub passes around (the `Message` struct of main.go).
    Its JSON encoding is not modelled: the hub only ever handles whole envelopes. */
module Envelopes {

  /** The identity a client is given when it connects (a UUID string). */
  type ClientId = string

  /** `sender` is empty for system notices; `recipient` is carried but never used
      for routing. */
  datatype Envelope = Envelope(sender: string, recipient: string, content: string)

  /** Notice sent to the other clients when a client registers. */
  const JoinedNotice: Envelope := Envelope("", "", "/A new socket has connected")

  /** Notice sent to the remaining clients when a client unregisters. */
  const LeftNotice: Envelope := Envelope("", "", "/A socket has disconnected")

  /** What the read pump of client `id` hands to the hub for a message `text` it read
      from its socket. */
  function Relay(id: ClientId, text: string): Envelope
  {
    Envelope(id, "", text)
  }

  /** A system notice carries no sender; a relayed message always names its client. */
  predicate IsNotice(e: Envelope) {
    e.sender == ""
  }

  /** The two notices are told apart from each other by their content, and from any
      relay of a client with a non-empty identity by their missing sender. */
  lemma NoticesAreDistinguishable(id: ClientId, text: string)
    requires id != ""
    ensures IsNotice(JoinedNotice) && IsNotice(LeftNotice)
    ensures JoinedNotice != LeftNotice
    ensures !IsNotice(Relay(id, text))
  {
  }
}
