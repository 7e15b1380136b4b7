/**
 * The POSIX actor in place (src/port/posix/posix_ipc_port.c): its byte ring, its receive slot and its flags. Each section
 * between lock operations is the step of ActorLoop of the same name, where the message a handler reads is whatever the
 * bytes of the receive slot say. What is proved of every run of those steps therefore holds of the bytes.
 */
module ActorThread {
  import opened Types
  import opened Mailbox
  import L = ActorLoop

  /** Where the thread is. */
  datatype Stage = Entering | Waiting | Handling | Exited(entered: bool)

  /** The tallies after one more send that ended in `rc`. */
  function Accounted(a: L.Actor, rc: int, w: Wire): L.Actor
    requires w.Readable()
  {
    var a1 := a.(offered := a.offered + 1);
    if rc == 0 then a1.(accepted := a.accepted + [Copied(w)])
    else if rc == DELIVERY_DROPPED then a1.(drops := a.drops + 1, dropped := Inc32(a.dropped))
    else a1.(failed := a.failed + 1)
  }

  /** A send in two parts: what the port does, and what is made of its result. */
  lemma SendInParts(a: L.Actor, w: Wire, policed: bool, sent: int, rc: int)
    requires w.Readable() && sent == PosixSend(a.box, w, a.room).1
    requires rc == if policed && (sent == -ENOMEM || sent == -EAGAIN) && a.policy == Drop then DELIVERY_DROPPED else sent
    ensures rc == L.SendRc(a, w, policed)
    ensures L.DoSend(a, w, policed) == Accounted(a.(box := PosixSend(a.box, w, a.room).0), rc, w)
    ensures |a.box.queue| <= |a.accepted| ==> |L.DoSend(a, w, policed).box.queue| <= |L.DoSend(a, w, policed).accepted|
  {}

  class PosixActor {
    const ring: Ring
    const policy: Overflow
    var running: bool
    var dropped: Uint32
    var stage: Stage
    ghost var current: nat            // which accepted message is being handled
    ghost var accepted: seq<Message>
    ghost var handled: seq<nat>
    ghost var purged: set<nat>
    ghost var offered: nat
    ghost var drops: nat
    ghost var failed: nat

    ghost predicate Shape()
      reads this, ring, ring.queue, ring.headers, ring.recv
    {
      ring.Valid() && ring.started && ring.maxPayload <= ring.Room()
    }

    ghost predicate Valid()
      reads this, ring, ring.queue, ring.headers, ring.recv
    {
      Shape() && |ring.View().queue| <= |accepted|
    }

    ghost function View(): L.Actor
      reads this, ring, ring.queue, ring.headers, ring.recv
      requires Shape()
    {
      var pc := match stage
        case Entering => L.Entering
        case Waiting => L.Waiting
        case Handling => L.Handling(ring.Loaded(), current)
        case Exited(entered) => L.Exited(entered);
      L.Actor(ring.View(), ring.Room(), policy, running, pc, dropped, accepted, handled, purged, offered, drops, failed)
    }

    /** ipc_port_actor_init, when its allocations and its thread succeed. */
    constructor (abi: Abi, queueDepth: nat, maxPayload: nat, policy: Overflow)
      requires abi.Fits(maxPayload) && queueDepth > 0
      ensures Valid() && View() == L.Start(queueDepth, maxPayload, ring.Room(), policy)
    {
      var r := new Ring(abi);
      var rc := r.Init(queueDepth, maxPayload, true);
      ring, this.policy := r, policy;
      running, dropped, stage := true, 0, Entering;
      current, accepted, handled, purged := 0, [], [], {};
      offered, drops, failed := 0, 0, 0;
      new;
      assert View().box == Box(true, queueDepth, maxPayload, []);
    }

    /** ipc_port_send */
    method PortSend(w: Wire) returns (sent: int)
      requires Shape() && w.Readable()
      modifies ring`tail, ring`count, ring`slots, ring.queue, ring.headers
      ensures Shape() && ring.Loaded() == old(ring.Loaded())
      ensures sent == PosixSend(old(View()).box, w, ring.Room()).1
      ensures View() == old(View()).(box := PosixSend(old(View()).box, w, ring.Room()).0)
    {
      sent := ring.PosixEnqueue(w);
    }

    /** apply_mailbox_overflow_policy, where the caller of a send applies it; the tallies record what became of the send. */
    method Account(sent: int, w: Wire, policed: bool) returns (rc: int)
      requires Shape() && w.Readable() && sent != DELIVERY_DROPPED
      modifies this`dropped, this`accepted, this`offered, this`drops, this`failed
      ensures Shape() && ring.Loaded() == old(ring.Loaded())
      ensures rc == if policed && (sent == -ENOMEM || sent == -EAGAIN) && policy == Drop then DELIVERY_DROPPED else sent
      ensures View() == Accounted(old(View()), rc, w)
    {
      rc := sent;
      offered := offered + 1;
      if policed && (rc == -ENOMEM || rc == -EAGAIN) && policy == Drop {
        dropped := Inc32(dropped);
        rc := DELIVERY_DROPPED;
        drops := drops + 1;
      } else if rc == 0 {
        accepted := accepted + [Copied(w)];
      } else {
        failed := failed + 1;
      }
    }

    /** A send and, where its caller applies it, the overflow policy. */
    method Send(w: Wire, policed: bool) returns (rc: int)
      requires Valid() && w.Readable()
      modifies this`dropped, this`accepted, this`offered, this`drops, this`failed
      modifies ring`tail, ring`count, ring`slots, ring.queue, ring.headers
      ensures Valid() && View() == L.Next(old(View()), L.Send(w, policed)) && rc == L.SendRc(old(View()), w, policed)
      ensures ring.Loaded() == old(ring.Loaded())
    {
      ghost var was := View();
      var sent := PortSend(w);
      rc := Account(sent, w, policed);
      SendInParts(was, w, policed, sent, rc);
    }

    /** From one point where the loop holds the lock to the next: takes a message, waits, or leaves the loop. */
    method Section()
      requires Valid()
      modifies this`stage, this`current, this`handled
      modifies ring`head, ring`count, ring`recvHeader, ring`received, ring.recv
      ensures Valid() && View() == L.Section(old(View()))
      ensures old(View()).box.queue != [] ==> stage == Handling && ring.Loaded() == old(View()).box.queue[0]
    {
      if ring.count > 0 {
        ghost var n := |accepted| - |ring.View().queue|;
        ring.Take();
        stage, current, handled := Handling, n, handled + [n];
      } else if running {
        stage := Waiting;
      } else {
        stage := Exited(true);
      }
    }

    /** The thread starts: it takes the lock and enters the loop, or finds the actor stopped already. */
    method Enter()
      requires Valid() && stage.Entering?
      modifies this`stage, this`current, this`handled
      modifies ring`head, ring`count, ring`recvHeader, ring`received, ring.recv
      ensures Valid() && View() == L.Next(old(View()), L.Enter)
    {
      if running {
        Section();
      } else {
          stage := Exited(false);
      }
    }

    /** pthread_cond_wait returns, for whatever reason. */
    method Wake()
      requires Valid() && stage.Waiting?
      modifies this`stage, this`current, this`handled
      modifies ring`head, ring`count, ring`recvHeader, ring`received, ring.recv
      ensures Valid() && View() == L.Next(old(View()), L.Wake)
    {
      Section();
    }

    /** The handler is done with the message and the thread has the lock again. */
    method HandlerReturns()
      requires Valid() && stage.Handling?
      modifies this`stage, this`current, this`handled
      modifies ring`head, ring`count, ring`recvHeader, ring`received, ring.recv
      ensures Valid() && View() == L.Next(old(View()), L.HandlerReturns)
    {
      Section();
    }

    /** The flag part of ipc_port_stop_actor. */
    method Stop()
      requires Valid()
      modifies this`running
      ensures Valid() && View() == L.Next(old(View()), L.Stop) && ring.Loaded() == old(ring.Loaded())
    {
      running := false;
    }

    /** The queue part of ipc_port_restart_actor: also from inside a handler, which goes on reading its message. */
    method Restart()
      requires Valid()
      modifies this`running, this`purged, ring`head, ring`tail, ring`count
      ensures Valid() && View() == L.Next(old(View()), L.Restart) && ring.Loaded() == old(ring.Loaded())
    {
      ghost var was, n := View(), |accepted|;
      assert |was.box.queue| == ring.count;
      purged := purged + L.Range(n - ring.count, n);
      ring.PosixRestart();
      assert View() == was.(box := was.box.(queue := []), purged := purged);
      running := true;
    }
  }
}
