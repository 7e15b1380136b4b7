/**
 * Actor mailboxes. `Box` is the bounded FIFO queue a port promises; `Ring` is the circular buffer over
 * flat slot storage that both host ports use (src/port/test/ipc_test_port.c and
 * src/port/posix/posix_ipc_port.c). Every `Ring` method is proved to act on its `Box` view.
 */
module Mailbox {
  import opened Types
  import opened SlotLayout
  import opened Bits

  // ------------------------------------------------------------------ the queue a port promises

  datatype Box = Box(started: bool, capacity: nat, maxPayload: nat, queue: seq<Message>)

  /** enqueue of the deterministic port. */
  function Send(b: Box, w: Wire): (r: (Box, int))
    requires w.Readable()
  {
    if !b.started then (b, -EPERM)
    else if w.header.size > b.maxPayload then (b, -EMSGSIZE)
    else if |b.queue| >= b.capacity then (b, -ENOMEM)
    else (b.(queue := b.queue + [Copied(w)]), 0)
  }

  /** ipc_port_send of the POSIX port: no started check, and a full mailbox is reported before an oversized payload. */
  function PosixSend(b: Box, w: Wire, room: nat): (r: (Box, int))
    requires w.Readable()
  {
    if |b.queue| >= b.capacity then (b, -ENOMEM)
    else if w.header.size > room then (b, -EMSGSIZE)
    else (b.(queue := b.queue + [Copied(w)]), 0)
  }

  /** When each port takes a message, which then is last in the queue, and what it answers otherwise. */
  lemma SendAccepts(b: Box, w: Wire, room: nat)
    requires w.Readable()
    ensures Send(b, w).1 == 0 <==> b.started && w.header.size <= b.maxPayload && |b.queue| < b.capacity
    ensures PosixSend(b, w, room).1 == 0 <==> |b.queue| < b.capacity && w.header.size <= room
    ensures var (b', rc) := Send(b, w);
            && (rc == 0 ==> b' == b.(queue := b.queue + [Message(w.header, Bytes(w.data, w.header.size))]))
            && (rc != 0 ==> b' == b)
            && (rc == -EPERM <==> !b.started) && (rc == -EMSGSIZE <==> b.started && w.header.size > b.maxPayload)
            && (rc != 0 ==> rc in {-EPERM, -EMSGSIZE, -ENOMEM})
    ensures var (b', rc) := PosixSend(b, w, room);
            && (rc == 0 ==> b' == b.(queue := b.queue + [Message(w.header, Bytes(w.data, w.header.size))]))
            && (rc != 0 ==> b' == b)
            && (rc == -ENOMEM <==> |b.queue| >= b.capacity) && (rc != 0 ==> rc in {-EMSGSIZE, -ENOMEM})
  {
    CopiedBytes(w);
  }

  function Stopped(b: Box): Box {
    b.(started := false, queue := [])
  }

  function Restart(b: Box): (Box, int) {
    if b.started then (b.(queue := []), 0) else (b, -EPERM)
  }

  // ------------------------------------------------------------------ the ring

  /** sizeof(ipc_msg_slot_header_t), log2 of the alignment of max_align_t, and the width of size_t. */
  datatype Abi = Abi(headerBytes: nat, alignBits: nat, sizeBits: nat) {
    ghost predicate Fits(maxPayload: nat) {
      alignBits < sizeBits && headerBytes + maxPayload + 2 * Pow2(alignBits) < Pow2(sizeBits)
    }
  }

  /** The slot `k` places after `head` in a ring of `capacity` slots. */
  function Pos(head: nat, k: nat, capacity: nat): (p: nat)
    requires head < capacity && k <= capacity
    ensures p < capacity
  {
    if head + k < capacity then head + k else head + k - capacity
  }

  lemma PosStep(head: nat, k: nat, capacity: nat)
    requires head < capacity && k <= capacity
    ensures (head + 1) % capacity == Pos(head, 1, capacity)
    ensures k < capacity ==> Pos(Pos(head, k, capacity), 1, capacity) == Pos(head, k + 1, capacity)
  {
    if head + 1 < capacity { DivModUnique(head + 1, capacity, 0, head + 1); }
    else { DivModUnique(head + 1, capacity, 1, 0); }
  }

  const BLANK := Message(Header(0, Event, 0, 0, 0, 0), [])

  /** The `count` messages queued from slot `head` on. */
  ghost function Queued(slots: seq<Message>, head: nat, count: nat): (s: seq<Message>)
    requires head < |slots| && count <= |slots|
    ensures |s| == count
    ensures forall k :: 0 <= k < count ==> s[k] == slots[Pos(head, k, |slots|)]
  {
    seq(count, k requires 0 <= k < count && head < |slots| && count <= |slots| => slots[Pos(head, k, |slots|)])
  }

  lemma QueuedPush(slots: seq<Message>, head: nat, count: nat, m: Message)
    requires head < |slots| && count < |slots|
    ensures Queued(slots[Pos(head, count, |slots|) := m], head, count + 1) == Queued(slots, head, count) + [m]
  {}

  lemma QueuedPop(slots: seq<Message>, head: nat, count: nat)
    requires head < |slots| && 0 < count <= |slots|
    ensures Queued(slots, head, count) == [slots[head]] + Queued(slots, Pos(head, 1, |slots|), count - 1)
  {
    assert Pos(head, 0, |slots|) == head;
    forall k | 0 <= k < count - 1
      ensures Pos(Pos(head, 1, |slots|), k, |slots|) == Pos(head, k + 1, |slots|)
    {}
  }

  /** Where the payload of slot `i` starts in the flat storage. */
  function Base(i: nat, size: nat, offset: nat): nat {
    i * size + offset
  }

  lemma BasesApart(i: nat, j: nat, n: nat, size: nat, offset: nat)
    requires i < n && j < n && i != j && offset <= size
    ensures Base(i, size, 0) + size <= n * size && Base(i, size, offset) == Base(i, size, 0) + offset
    ensures Base(i, size, offset) + (size - offset) <= Base(j, size, offset)
         || Base(j, size, offset) + (size - offset) <= Base(i, size, offset)
  {
    SlotsDisjoint(i, n, size);
    if i < j { SlotsDisjoint(i, j, size); } else { SlotsDisjoint(j, i, size); }
  }

  /** The bytes at `base`, under header `h`, spell out message `m`. */
  ghost predicate Spelled(bytes: seq<Byte>, base: nat, room: int, h: Header, m: Message) {
    && h == m.header && |m.payload| == h.size <= room
    && base + h.size <= |bytes| && bytes[base..base + h.size] == m.payload
  }

  /** The flat storage spells out one message per slot. */
  ghost predicate Spells(bytes: seq<Byte>, headers: seq<Header>, slots: seq<Message>, size: nat, offset: nat) {
    && |headers| == |slots| && |bytes| == |slots| * size
    && forall i :: 0 <= i < |slots| ==> Spelled(bytes, Base(i, size, offset), size - offset, headers[i], slots[i])
  }

  lemma BlankSpells(bytes: seq<Byte>, headers: seq<Header>, slots: seq<Message>, size: nat, offset: nat)
    requires |headers| == |slots| && |bytes| == |slots| * size && (slots != [] ==> offset <= size)
    requires forall i :: 0 <= i < |slots| ==> headers[i] == BLANK.header && slots[i] == BLANK
    ensures Spells(bytes, headers, slots, size, offset)
  {
    forall i | 0 <= i < |slots|
      ensures Spelled(bytes, Base(i, size, offset), size - offset, headers[i], slots[i])
    {
      SlotsDisjoint(i, |slots|, size);
    }
  }

  /** Writing a message into the payload area of slot `i` makes that slot spell it and leaves every other slot as it was. */
  lemma WriteSpells(bytes: seq<Byte>, bytes': seq<Byte>, headers: seq<Header>, slots: seq<Message>,
                    size: nat, offset: nat, i: nat, m: Message)
    requires Spells(bytes, headers, slots, size, offset) && i < |slots| && offset <= size && |bytes'| == |bytes|
    requires Spelled(bytes', Base(i, size, offset), size - offset, m.header, m)
    requires forall b :: 0 <= b < |bytes| && !(Base(i, size, offset) <= b < Base(i, size, offset) + m.header.size) ==> bytes'[b] == bytes[b]
    ensures Spells(bytes', headers[i := m.header], slots[i := m], size, offset)
  {
    forall j | 0 <= j < |slots| && j != i
      ensures Spelled(bytes', Base(j, size, offset), size - offset, headers[j], slots[j])
    {
      BasesApart(i, j, |slots|, size, offset);
      var base := Base(j, size, offset);
      assert Spelled(bytes, base, size - offset, headers[j], slots[j]);
      assert bytes'[base..base + headers[j].size] == bytes[base..base + headers[j].size];
    }
  }

  class Ring {
    const abi: Abi
    const payloadOffset: nat    // IPC_MSG_SLOT_HEADER_SIZE: where the payload starts inside a slot
    var queue: array<Byte>      // payload bytes of all slots, `capacity * slotSize` of them
    var headers: array<Header>  // the header struct overlaid on the start of each slot
    var recv: array<Byte>       // receive_slot / recv_slot
    var recvHeader: Header
    var slotSize: nat
    var maxPayload: nat
    var capacity: nat
    var head: nat
    var tail: nat
    var count: nat
    var started: bool
    ghost var slots: seq<Message>  // the message each slot's bytes spell out
    ghost var received: Message    // the message the receive slot's bytes spell out

    ghost predicate Valid()
      reads this, queue, headers, recv
    {
      && Cursors() && queue != recv && recv.Length == slotSize
      && |slots| == capacity && (capacity > 0 ==> payloadOffset + maxPayload <= slotSize)
      && Spells(queue[..], headers[..], slots, slotSize, payloadOffset)
      && ((recvHeader == BLANK.header && received == BLANK)
          || Spelled(recv[..], payloadOffset, Room(), recvHeader, received))
    }

    /** The tail is `count` places after the head; a stopped ring's cursors may be stale. */
    ghost predicate Cursors()
      reads this`started, this`head, this`tail, this`count, this`capacity
    {
      started ==> head < capacity && count <= capacity && tail == Pos(head, count, capacity)
    }

    /** Payload bytes a slot has room for; at least maxPayload. */
    function Room(): int
      reads this`slotSize
    {
      slotSize - payloadOffset
    }

    /** load_msg: the message as the bytes of the receive slot have it. */
    function Loaded(): (m: Message)
      reads this, queue, headers, recv
      requires Valid() && capacity > 0
      ensures m == received
    {
      Message(recvHeader, recv[payloadOffset..payloadOffset + recvHeader.size])
    }

    /** What this ring means to its users. A stopped ring holds nothing, whatever its cursors are. */
    ghost function View(): Box
      reads this`started, this`head, this`tail, this`count, this`capacity, this`maxPayload, this`slots
      requires Cursors() && |slots| == capacity
    {
      Box(started, capacity, maxPayload, if started then Queued(slots, head, count) else [])
    }

    constructor (abi: Abi)
      requires abi.alignBits < abi.sizeBits
      ensures Valid() && !started && capacity == 0 && this.abi == abi
      ensures fresh(queue) && fresh(headers) && fresh(recv)
      ensures payloadOffset == HeaderSize(abi.headerBytes, abi.alignBits, abi.sizeBits)
    {
      this.abi := abi;
      payloadOffset := HeaderSize(abi.headerBytes, abi.alignBits, abi.sizeBits);
      queue, headers, recv := new Byte[0], new Header[0], new Byte[0];
      recvHeader := BLANK.header;
      slotSize, maxPayload, capacity, head, tail, count, started := 0, 0, 0, 0, 0, 0, false;
      slots, received := [], BLANK;
    }

    /** Installs `n` zeroed slots and empty cursors: what calloc gives, and with n == 0 what release_state leaves. */
    method Install(n: nat, size: nat, payload: nat)
      requires n > 0 ==> payloadOffset + payload <= size
      modifies this
      ensures Valid() && View() == Box(false, n, payload, [])
      ensures slotSize == size && head == tail == count == 0
    {
      AllocateSlots(n, size);
      recv := ZeroedBytes(size);
      recvHeader, received := BLANK.header, BLANK;
      slotSize, capacity, maxPayload := size, n, payload;
      head, tail, count, started := 0, 0, 0, false;
    }

    /** calloc of the queue. */
    method AllocateSlots(n: nat, size: nat)
      requires n > 0 ==> payloadOffset <= size
      modifies this`queue, this`headers, this`slots
      ensures fresh(queue) && fresh(headers) && |slots| == n
      ensures Spells(queue[..], headers[..], slots, size, payloadOffset)
    {
      queue := ZeroedBytes(n * size);
      headers := BlankHeaders(n);
      slots := seq(n, _ => BLANK);
      BlankSpells(queue[..], headers[..], slots, size, payloadOffset);
    }

    /** ipc_port_actor_init: releases what was there and allocates a zeroed ring; allocation may fail. */
    method Init(queueDepth: nat, maxPayloadSize: nat, allocates: bool) returns (rc: int)
      requires Valid() && abi.Fits(maxPayloadSize)
      requires payloadOffset == HeaderSize(abi.headerBytes, abi.alignBits, abi.sizeBits)
      modifies this
      ensures Valid()
      ensures rc == if queueDepth == 0 then -EINVAL else if !allocates then -ENOMEM else 0
      ensures View() == if queueDepth == 0 then old(View())
                        else if !allocates then Box(false, 0, maxPayloadSize, [])
                        else Box(true, queueDepth, maxPayloadSize, [])
    {
      if queueDepth == 0 {
        return -EINVAL;
      }
      if !allocates {
        Install(0, 0, maxPayloadSize);
        return -ENOMEM;
      }
      SlotsHoldAndSeparate(abi.headerBytes, maxPayloadSize, abi.alignBits, abi.sizeBits, 0, 1);
      Install(queueDepth, SlotSize(abi.headerBytes, maxPayloadSize, abi.alignBits, abi.sizeBits), maxPayloadSize);
      started := true;
      return 0;
    }

    /** store_msg: fills slot `i` with the header and the payload bytes, and touches no other slot. */
    method WriteSlot(i: nat, w: Wire)
      requires Spells(queue[..], headers[..], slots, slotSize, payloadOffset) && payloadOffset <= slotSize
      requires w.Readable() && i < |slots| && w.header.size <= Room()
      modifies queue, headers, this`slots
      ensures Spells(queue[..], headers[..], slots, slotSize, payloadOffset)
      ensures slots == old(slots)[i := Copied(w)]
    {
      ghost var bytes := queue[..];
      ghost var hs := headers[..];
      SlotsDisjoint(i, |slots|, slotSize);
      var base := Base(i, slotSize, payloadOffset);
      headers[i] := w.header;
      forall b | 0 <= b < w.header.size {
        queue[base + b] := if w.data.Some? then w.data.value[b] else 0;
      }
      assert queue[..][base..base + w.header.size] == Copied(w).payload;
      assert headers[..] == hs[i := w.header];
      WriteSpells(bytes, queue[..], hs, slots, slotSize, payloadOffset, i, Copied(w));
      slots := slots[i := Copied(w)];
    }

    /** Writes a message into the tail slot and advances the tail. */
    method Store(w: Wire)
      requires Valid() && started && w.Readable()
      requires count < capacity && w.header.size <= Room()
      modifies this`tail, this`count, this`slots, queue, headers
      ensures Valid()
      ensures View() == old(View()).(queue := old(View()).queue + [Copied(w)])
      ensures slots == old(slots)[old(tail) := Copied(w)] && recv[..] == old(recv[..])
    {
      QueuedPush(slots, head, count, Copied(w));
      PosStep(tail, 0, capacity);
      PosStep(head, count, capacity);
      WriteSlot(tail, w);
      tail := (tail + 1) % capacity;
      count := count + 1;
    }

    /** enqueue, behind ipc_port_send of the deterministic port. */
    method Enqueue(w: Wire) returns (rc: int)
      requires Valid() && w.Readable()
      modifies this`tail, this`count, this`slots, queue, headers
      ensures Valid()
      ensures (View(), rc) == Send(old(View()), w)
      ensures recv[..] == old(recv[..]) && (started ==> Loaded() == old(Loaded()))
    {
      if !started { return -EPERM; }
      if w.header.size > maxPayload { return -EMSGSIZE; }
      if count == capacity { return -ENOMEM; }
      Store(w);
      return 0;
    }

    /** ipc_port_send of the POSIX port. */
    method PosixEnqueue(w: Wire) returns (rc: int)
      requires Valid() && started && w.Readable()
      modifies this`tail, this`count, this`slots, queue, headers
      ensures Valid()
      ensures (View(), rc) == PosixSend(old(View()), w, Room())
      ensures recv[..] == old(recv[..]) && Loaded() == old(Loaded())
    {
      if count >= capacity { return -ENOMEM; }
      if w.header.size > slotSize - payloadOffset { return -EMSGSIZE; }
      Store(w);
      return 0;
    }

    /** memcpy of slot `i` into the receive slot. */
    method CopyOut(i: nat)
      requires Spells(queue[..], headers[..], slots, slotSize, payloadOffset) && payloadOffset <= slotSize
      requires i < |slots| && recv != queue && recv.Length == slotSize
      modifies this`recvHeader, this`received, recv
      ensures Spelled(recv[..], payloadOffset, Room(), recvHeader, received) && received == slots[i]
    {
      SlotsDisjoint(i, |slots|, slotSize);
      var base := Base(i, slotSize, 0);
      forall b | 0 <= b < slotSize {
        recv[b] := queue[base + b];
      }
      recvHeader, received := headers[i], slots[i];
      assert Spelled(queue[..], Base(i, slotSize, payloadOffset), Room(), headers[..][i], slots[i]);
      assert recv[..][payloadOffset..payloadOffset + recvHeader.size]
          == queue[..][base + payloadOffset..base + payloadOffset + recvHeader.size];
    }

    /** Copies the head slot into the receive slot and advances the head (pump and actor thread alike). */
    method Take()
      requires Valid() && started && count > 0
      modifies this`head, this`count, this`recvHeader, this`received, recv
      ensures Valid()
      ensures [received] + View().queue == old(View()).queue
      ensures View() == old(View()).(queue := View().queue)
      ensures Loaded() == old(slots[head]) && Spelled(recv[..], payloadOffset, Room(), recvHeader, received)
    {
      QueuedPop(slots, head, count);
      PosStep(head, 0, capacity);
      CopyOut(head);
      head := (head + 1) % capacity;
      count := count - 1;
    }

    /**
     * Why the receiver reads a copy: the head slot of a full ring is taken, and before its message is handled another one
     * is sent. That one is written over the very slot the first was taken from; the receive slot still has the first.
     */
    method TakeThenOverwrite(w: Wire) returns (rc: int)
      requires Valid() && started && count == capacity && w.Readable()
      modifies this`head, this`tail, this`count, this`slots, this`recvHeader, this`received, queue, headers, recv
      ensures Valid() && Loaded() == old(slots[head]) == old(View()).queue[0]
      ensures rc == if w.header.size > Room() then -EMSGSIZE else 0
      ensures rc == 0 ==> slots == old(slots)[old(head) := Copied(w)]
    {
      assert View().queue[0] == slots[head] && tail == head;
      Take();
      if w.header.size > Room() { return -EMSGSIZE; }
      Store(w);
      return 0;
    }

    /** ipc_port_stop_actor of the deterministic port: the cursors keep their old values. */
    method Stop()
      requires Valid()
      modifies this`started, this`count
      ensures Valid() && View() == Stopped(old(View())) && !started && View().queue == []
    {
      started := false;
      count := 0;
    }

    /** ipc_port_restart_actor of the deterministic port. */
    method RestartQueue() returns (rc: int)
      requires Valid()
      modifies this`head, this`tail, this`count
      ensures Valid() && (View(), rc) == Restart(old(View()))
      ensures rc == (if old(started) then 0 else -EPERM) && (rc == 0 ==> View() == old(View()).(queue := []))
      ensures recv[..] == old(recv[..]) && (started ==> Loaded() == old(Loaded()))
    {
      if !started { return -EPERM; }
      head, tail, count := 0, 0, 0;
      return 0;
    }

    /** The queue part of ipc_port_restart_actor of the POSIX port; the receive slot stays as it is. */
    method PosixRestart()
      requires Valid() && started
      modifies this`head, this`tail, this`count
      ensures Valid() && View() == old(View()).(queue := [])
      ensures recv[..] == old(recv[..]) && Loaded() == old(Loaded())
    {
      head, tail, count := 0, 0, 0;
    }
  }

  method ZeroedBytes(n: nat) returns (a: array<Byte>)
    ensures fresh(a) && a.Length == n
  {
    a := new Byte[n](_ => 0);
  }

  method BlankHeaders(n: nat) returns (a: array<Header>)
    ensures fresh(a) && a.Length == n && forall i :: 0 <= i < n ==> a[i] == BLANK.header
  {
    a := new Header[n](_ => BLANK.header);
  }
}
