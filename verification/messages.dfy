/**
 The wire message that the Talker publishes and the Listener receives.

 Only the three fields the transport inspects are interpreted: `type`,
 `sender` and `receiver`. Everything else a protocol message carries is an
 opaque payload that the transport stores and forwards untouched.
 */
module Messages {

  /** A value that may be absent; `None` stands for Python's `None`. */
  datatype Option<+T> = None | Some(value: T)

  /** A node identity: its address, which is also the TCP port its Talker binds. */
  type Id = int

  /**
   The message type enumeration belongs to the protocol layer. The transport
   only distinguishes `Heartbeat` from every other variant, so the others are
   kept abstract behind a tag.
   */
  datatype MsgType = Heartbeat | Other(tag: nat)

  /** A wire message; a `receiver` of `None` means broadcast. */
  datatype Msg = Msg(mtype: MsgType, sender: Id, receiver: Option<Id>, payload: string)
}
