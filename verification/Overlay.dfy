/** The values that cross the overlay: sessions, announced nodes and messages.
    Messages are sealed and encoded in the source; here they arrive as sent or
    not at all. */
module Overlay {
  import opened Wrappers

  type SessionId = string
  /** A DERP public key; 0 stands for the zero key. */
  type DerpKey = nat
  type Port = p: nat | p < 0x1_0000
  /** Nanoseconds. */
  type Time = int

  const SECOND: Time := 1_000_000_000
  const KEEP_ALIVE_INTERVAL: Time := 30 * SECOND
  const INACTIVE_TIMEOUT: Time := 120 * SECOND

  /** An announced node: the fields the control server sorts by, and the rest. */
  datatype Node = Node(id: int, key: string, rest: int)

  /** Adds or replaces a session's node; without a node it removes the session. */
  datatype PeerUpdate = PeerUpdate(id: SessionId, node: Option<Node>)

  datatype Body =
    | Ping
    | Pong
    | Hello
    | HelloResponse
    | NodeUpdate(node: Node)
    | Goodbye
    | OpenUdp(requestId: string, port: Port)
    | OpenUdpResponse
    | Unsupported(typ: int)
}
