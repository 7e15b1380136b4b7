/**
 * One actor of the POSIX port (src/port/posix/posix_ipc_port.c): its thread's loop against concurrent sends, stops and
 * restarts, in steps between lock operations, with the overflow policy of src/ipc.c on top of the sends.
 */
module ActorLoop {
  import opened Types
  import opened Mailbox

  datatype Pc =
    | Entering                       // thread created, lock not yet taken
    | Waiting                        // in pthread_cond_wait, lock released
    | Handling(m: Message, n: nat)   // lock released; the handler reads recv_slot, which holds the n-th accepted message
    | Exited(entered: bool)          // returned; whether the loop was ever entered

  /**
   * `accepted` are the messages the mailbox took, in order; `handled` and `purged` are positions in it.
   * `offered`, `failed` and `drops` count the results of sends; `dropped` is the actor's own uint32 counter.
   */
  datatype Actor = Actor(box: Box, room: nat, policy: Overflow, running: bool, pc: Pc, dropped: Uint32,
                         accepted: seq<Message>, handled: seq<nat>, purged: set<nat>,
                         offered: nat, drops: nat, failed: nat)

  datatype Action =
    | Send(w: Wire, policed: bool)   // error replies and timeouts bypass the overflow policy
    | Enter | Wake | HandlerReturns
    | Stop | Restart

  // ------------------------------------------------------------------ steps

  /** What the thread does next while it holds the lock inside the loop. */
  function Section(a: Actor): Actor {
    if a.box.queue != [] then
      var n := |a.accepted| - |a.box.queue|;
      if n < 0 then a
      else a.(pc := Handling(a.box.queue[0], n), box := a.box.(queue := a.box.queue[1..]), handled := a.handled + [n])
    else if a.running then a.(pc := Waiting)
    else a.(pc := Exited(true))
  }

  /** The result of a send, after the overflow policy if it applies. */
  function SendRc(a: Actor, w: Wire, policed: bool): int
    requires w.Readable()
  {
    var rc := PosixSend(a.box, w, a.room).1;
    if policed && (rc == -ENOMEM || rc == -EAGAIN) && a.policy == Drop then DELIVERY_DROPPED else rc
  }

  function DoSend(a: Actor, w: Wire, policed: bool): Actor
    requires w.Readable()
  {
    var rc := SendRc(a, w, policed);
    var a1 := a.(box := PosixSend(a.box, w, a.room).0, offered := a.offered + 1);
    if rc == 0 then a1.(accepted := a.accepted + [Copied(w)])
    else if rc == DELIVERY_DROPPED then a1.(drops := a.drops + 1, dropped := Inc32(a.dropped))
    else a1.(failed := a.failed + 1)
  }

  /** The positions from `lo` up to `hi`. */
  function Range(lo: nat, hi: nat): (s: set<nat>)
    requires lo <= hi
    ensures |s| == hi - lo && forall i :: i in s <==> lo <= i < hi
    decreases hi - lo
  {
    if lo == hi then {} else Range(lo, hi - 1) + {hi - 1}
  }

  /** ipc_port_restart_actor: empties the queue and lets the loop run on. */
  function DoRestart(a: Actor): Actor {
    var q, n := |a.box.queue|, |a.accepted|;
    a.(box := a.box.(queue := []), running := true, purged := if q <= n then a.purged + Range(n - q, n) else a.purged)
  }

  /** One step; an action that does not apply changes nothing. */
  function Next(a: Actor, act: Action): Actor {
    match act
    case Send(w, policed) => if w.Readable() then DoSend(a, w, policed) else a
    case Enter => if !a.pc.Entering? then a else if a.running then Section(a) else a.(pc := Exited(false))
    case Wake => if a.pc.Waiting? then Section(a) else a
    case HandlerReturns => if a.pc.Handling? then Section(a) else a
    case Stop => a.(running := false)
    case Restart => DoRestart(a)
  }

  /** ipc_port_actor_init; `room` is what a slot leaves for the payload. */
  function Start(capacity: nat, maxPayload: nat, room: nat, policy: Overflow): Actor {
    Actor(Box(true, capacity, maxPayload, []), room, policy, true, Entering, 0, [], [], {}, 0, 0, 0)
  }

  // ------------------------------------------------------------------ the invariant

  /** Where the queued messages start in the acceptance order. */
  ghost function Front(a: Actor): int {
    |a.accepted| - |a.box.queue|
  }

  /** The queue is the tail of what was accepted; everything before it was handled, in order, or purged. */
  ghost predicate FifoOk(a: Actor) {
    && 0 <= Front(a) && |a.box.queue| <= a.box.capacity
    && a.box.queue == a.accepted[Front(a)..]
    && (forall i, j :: 0 <= i < j < |a.handled| ==> a.handled[i] < a.handled[j])
    && (forall i :: 0 <= i < |a.handled| ==> a.handled[i] < Front(a) && a.handled[i] !in a.purged)
    && (forall i :: i in a.purged ==> i < Front(a))
    && (forall i :: 0 <= i < Front(a) ==> i in a.handled || i in a.purged)
    && |a.accepted| == |a.handled| + |a.box.queue| + |a.purged|
    && (a.pc.Handling? ==> a.pc.n < |a.accepted| && a.pc.m == a.accepted[a.pc.n])
    && (a.pc.Handling? ==> a.handled != [] && a.handled[|a.handled| - 1] == a.pc.n)
  }

  ghost predicate TallyOk(a: Actor) {
    a.offered == |a.accepted| + a.drops + a.failed && a.dropped == a.drops % UINT32_LIMIT
  }

  lemma SectionKeepsFifo(a: Actor)
    requires FifoOk(a)
    ensures FifoOk(Section(a))
  {
    if a.box.queue != [] {
      var a' := Section(a);
      var n := Front(a);
      assert a.box.queue[0] == a.accepted[n] && a.box.queue[1..] == a.accepted[n + 1..];
      assert a'.handled[|a.handled|] == n;
      forall i | 0 <= i < Front(a')
        ensures i in a'.handled || i in a'.purged
      {
        if i < n && i in a.handled {
          var j :| 0 <= j < |a.handled| && a.handled[j] == i;
          assert a'.handled[j] == i;
        }
      }
    }
  }

  lemma SendKeepsFifo(a: Actor, w: Wire, policed: bool)
    requires FifoOk(a) && w.Readable()
    ensures FifoOk(DoSend(a, w, policed))
  {
    var a' := DoSend(a, w, policed);
    if SendRc(a, w, policed) == 0 {
      assert a'.accepted[Front(a)..] == a.accepted[Front(a)..] + [Copied(w)];
    }
  }

  lemma RestartKeepsFifo(a: Actor)
    requires FifoOk(a)
    ensures FifoOk(DoRestart(a))
  {
    var n := |a.accepted|;
    var cut := Range(n - |a.box.queue|, n);
    assert a.purged !! cut;
    assert a.accepted[n..] == [];
  }

  lemma StepKeepsTally(a: Actor, act: Action)
    requires TallyOk(a)
    ensures TallyOk(Next(a, act))
  {}

  lemma StepKeepsFifo(a: Actor, act: Action)
    requires FifoOk(a)
    ensures FifoOk(Next(a, act))
  {
    if Next(a, act) == Section(a) {
      SectionKeepsFifo(a);
    } else {
      match act {
        case Send(w, policed) => if w.Readable() { SendKeepsFifo(a, w, policed); }
        case Restart => RestartKeepsFifo(a);
        case _ => SameMessages(a, Next(a, act));
      }
    }
  }

  /** A step that moves no message. */
  lemma SameMessages(a: Actor, a': Actor)
    requires FifoOk(a) && a'.box == a.box && a'.accepted == a.accepted && a'.handled == a.handled && a'.purged == a.purged
    requires a'.pc == a.pc || !a'.pc.Handling?
    ensures FifoOk(a')
  {}

  // ------------------------------------------------------------------ every interleaving

  function After(a: Actor, actions: seq<Action>): Actor
    decreases |actions|
  {
    if actions == [] then a else After(Next(a, actions[0]), actions[1..])
  }

  /**
   * Conservation and order: whatever senders, stops and restarts do, the actor handles messages in the order they were
   * accepted, each at most once; every accepted message is handled, queued or purged; the one being handled is still
   * what was accepted; every send is counted as accepted, dropped or failed; and the actor's drop counter is the
   * number of sends that reported IPC_DELIVERY_DROPPED, modulo 2^32.
   */
  lemma {:induction false} MessagesAreConserved(a: Actor, actions: seq<Action>)
    requires FifoOk(a) && TallyOk(a)
    ensures FifoOk(After(a, actions)) && TallyOk(After(a, actions))
    decreases |actions|
  {
    if actions != [] {
      StepKeepsFifo(a, actions[0]);
      StepKeepsTally(a, actions[0]);
      MessagesAreConserved(Next(a, actions[0]), actions[1..]);
    }
  }

  lemma StartIsOk(capacity: nat, maxPayload: nat, room: nat, policy: Overflow)
    ensures FifoOk(Start(capacity, maxPayload, room, policy)) && TallyOk(Start(capacity, maxPayload, room, policy))
  {}

  lemma {:induction false} NothingPurged(a: Actor, actions: seq<Action>)
    requires a.purged == {} && forall i :: 0 <= i < |actions| ==> !actions[i].Restart?
    ensures After(a, actions).purged == {}
    decreases |actions|
  {
    if actions != [] { NothingPurged(Next(a, actions[0]), actions[1..]); }
  }

  lemma {:induction false} HandledInFull(a: Actor, i: nat)
    requires FifoOk(a) && a.purged == {} && i < |a.handled|
    ensures a.handled[i] == i
    decreases i
  {
    if i > 0 { HandledInFull(a, i - 1); }
    assert a.handled[i] >= i;
    if a.handled[i] > i {
      assert i in a.handled;
      var j :| 0 <= j < |a.handled| && a.handled[j] == i;
      if j < i { HandledInFull(a, j); }
    }
  }

  /**
   * The loop is left only with an empty mailbox: a step that ends a loop that was entered finds nothing queued and the
   * actor stopped, and if the actor was never restarted it has handled everything it ever accepted, in order.
   */
  lemma LoopExitsEmpty(capacity: nat, maxPayload: nat, room: nat, policy: Overflow, actions: seq<Action>, act: Action)
    ensures var a := After(Start(capacity, maxPayload, room, policy), actions);
            var a' := Next(a, act);
            !a.pc.Exited? && a'.pc == Exited(true) ==>
              && a.box.queue == a'.box.queue == [] && !a'.running
              && ((forall i :: 0 <= i < |actions| ==> !actions[i].Restart?) ==>
                    a'.handled == seq(|a'.accepted|, i requires 0 <= i => i))
  {
    var s := Start(capacity, maxPayload, room, policy);
    StartIsOk(capacity, maxPayload, room, policy);
    MessagesAreConserved(s, actions);
    var a := After(s, actions);
    var a' := Next(a, act);
    if !a.pc.Exited? && a'.pc == Exited(true) && forall i :: 0 <= i < |actions| ==> !actions[i].Restart? {
      NothingPurged(s, actions);
      forall i | 0 <= i < |a.handled| ensures a.handled[i] == i { HandledInFull(a, i); }
    }
  }

  /** What a send answers, with the overflow policy where it applies, and that it is counted as such. */
  lemma SendOutcome(a: Actor, w: Wire, policed: bool)
    requires w.Readable()
    ensures var full, a' := |a.box.queue| >= a.box.capacity, Next(a, Send(w, policed));
            && SendRc(a, w, policed) == (if full then (if policed && a.policy == Drop then 1 else -ENOMEM)
                                         else if w.header.size > a.room then -EMSGSIZE else 0)
            && (!full && w.header.size <= a.room ==>
                  a' == a.(box := a.box.(queue := a.box.queue + [Copied(w)]), accepted := a.accepted + [Copied(w)], offered := a.offered + 1))
            && (full && policed && a.policy == Drop ==>
                  a' == a.(drops := a.drops + 1, dropped := if a.dropped == 0xFFFF_FFFF then 0 else a.dropped + 1, offered := a.offered + 1))
            && ((full && !(policed && a.policy == Drop)) || (!full && w.header.size > a.room) ==>
                  a' == a.(failed := a.failed + 1, offered := a.offered + 1))
  {}

  /** The thread is about to look at its mailbox while it is in the loop. */
  predicate AtSection(a: Actor, act: Action) {
    (a.pc.Waiting? && act.Wake?) || (a.pc.Handling? && act.HandlerReturns?) || (a.pc.Entering? && act.Enter? && a.running)
  }

  /** What the thread does next: the oldest message if there is one; otherwise it waits, or leaves exactly if it was stopped. */
  lemma SectionOutcome(a: Actor, act: Action)
    requires FifoOk(a) && AtSection(a, act)
    ensures var a', q := Next(a, act), a.box.queue;
            && (q != [] ==> a' == a.(pc := Handling(q[0], |a.accepted| - |q|), box := a.box.(queue := q[1..]),
                                     handled := a.handled + [|a.accepted| - |q|]))
            && (q == [] && a.running ==> a' == a.(pc := Waiting))
            && (q == [] && !a.running ==> a' == a.(pc := Exited(true)))
  {}

  /** A stop only clears the flag; a restart empties the mailbox, counts what was in it as purged, and sets the flag. */
  lemma StopAndRestart(a: Actor)
    requires FifoOk(a)
    ensures Next(a, Stop) == a.(running := false)
    ensures var a' := Next(a, Restart);
            && a' == a.(box := a.box.(queue := []), running := true, purged := a'.purged)
            && forall i: nat :: i in a'.purged <==> i in a.purged || Front(a) <= i < |a.accepted|
  {}

  /** A stopped actor that nobody restarts handles what is left, message by message in order, and then leaves the loop. */
  lemma {:induction false} StoppedActorDrains(a: Actor)
    requires FifoOk(a) && TallyOk(a) && a.pc.Handling? && !a.running
    ensures var a' := After(a, seq(|a.box.queue| + 1, _ => HandlerReturns));
            && a'.pc == Exited(true) && a'.box.queue == [] && a'.accepted == a.accepted && a'.purged == a.purged
            && |a'.handled| == |a.handled| + |a.box.queue|
    decreases |a.box.queue|
  {
    var acts := seq(|a.box.queue| + 1, _ => HandlerReturns);
    var a1 := Next(a, HandlerReturns);
    StepKeepsFifo(a, HandlerReturns);
    StepKeepsTally(a, HandlerReturns);
    assert acts[0] == HandlerReturns;
    if a.box.queue == [] {
      assert acts[1..] == [];
    } else {
      assert acts[1..] == seq(|a1.box.queue| + 1, _ => HandlerReturns);
      StoppedActorDrains(a1);
    }
  }

  /**
   * While the handler runs, whatever senders, stops and restarts do, and however often, the message it reads is the one it
   * was given: the n-th that was accepted. (ActorThread has these bytes in the receive slot.)
   */
  lemma {:induction false} HandlerReadsItsOwnCopy(a: Actor, actions: seq<Action>)
    requires FifoOk(a) && TallyOk(a) && a.pc.Handling? && forall i :: 0 <= i < |actions| ==> !actions[i].HandlerReturns?
    ensures After(a, actions).pc == a.pc && a.pc.n < |After(a, actions).accepted|
    ensures a.pc.m == After(a, actions).accepted[a.pc.n]
    decreases |actions|
  {
    if actions != [] {
      StepKeepsFifo(a, actions[0]);
      StepKeepsTally(a, actions[0]);
      HandlerReadsItsOwnCopy(Next(a, actions[0]), actions[1..]);
    }
  }
}
