/** Entities shared by every module: errno values, messages, and the C integer width the framework uses. */
module Types {
  const UINT32_LIMIT := 0x1_0000_0000

  type Uint32 = x: nat | x < UINT32_LIMIT

  type Byte = x: nat | x < 256

  /** `struct ipc_actor *` and callback pointers are addresses; address 0 is NULL. */
  type Actor = nat
  type Callback = nat
  const NULL: nat := 0

  // errno.h values used by the framework; the API returns them negated.
  const EPERM := 1
  const ENOENT := 2
  const EAGAIN := 11
  const ENOMEM := 12
  const EBUSY := 16
  const EEXIST := 17
  const EINVAL := 22
  const EMSGSIZE := 90
  const ETIMEDOUT := 110
  const EALREADY := 114

  /** IPC_DELIVERY_DROPPED */
  const DELIVERY_DROPPED := 1

  /** ipc_ask_timeout_msg_id, which is UINT32_MAX */
  const TIMEOUT_MSG_ID: Uint32 := 0xFFFF_FFFF

  datatype Option<+T> = None | Some(value: T)

  datatype Kind = Event | Cmd

  /** ipc_msg_slot_header_t: every field of a message but the payload pointer. */
  datatype Header = Header(id: Uint32, kind: Kind, size: nat, askId: Uint32, replyId: Uint32, result: int)

  /** A message as a mailbox holds it: header and copied payload bytes. */
  datatype Message = Message(header: Header, payload: seq<Byte>)

  /**
   * `struct ipc_msg` as a caller passes it: `data` is the payload pointer, None when it is NULL.
   * A caller that passes a pointer owes `size` readable bytes behind it.
   */
  datatype Wire = Wire(header: Header, data: Option<seq<Byte>>) {
    predicate Readable() {
      data.Some? ==> |data.value| == header.size
    }
  }

  /** What a port must store for a wire message: the pointed-to bytes, or zeros for NULL. */
  function Copied(w: Wire): (m: Message)
    requires w.Readable()
    ensures m.header == w.header && |m.payload| == w.header.size
    ensures w.data.Some? ==> m.payload == w.data.value
    ensures w.data.None? ==> forall i :: 0 <= i < |m.payload| ==> m.payload[i] == 0
  {
    Message(w.header, if w.data.Some? then w.data.value else seq(w.header.size, _ => 0))
  }

  /** The bytes a message of this size carries: the caller's, or zeros for a NULL pointer. */
  function Bytes(payload: Option<seq<Byte>>, size: nat): seq<Byte> {
    if payload.Some? then payload.value else seq(size, _ => 0)
  }

  lemma CopiedBytes(w: Wire)
    requires w.Readable()
    ensures Copied(w) == Message(w.header, Bytes(w.data, w.header.size))
  {}

  /** `x + 1` on a uint32_t. */
  function Inc32(x: Uint32): Uint32 {
    (x + 1) % UINT32_LIMIT
  }

  /** ipc_mailbox_overflow_policy_t */
  datatype Overflow = Fail | Drop
}
