/** The API of src/ipc.c performed in place, one lock section at a time, and the pump of src/port/test/ipc_test_port.c. */
module IpcCoreSystem {
  import opened Types
  import opened Mailbox
  import opened AskTable
  import opened Registry
  import opened Core
  import opened CoreDrain
  import opened CoreSystem

  /** What holds between turns of a pump that began in world `w0` and is now in world `w`. */
  ghost predicate Pumping(w0: World, w: World, order: seq<Actor>, h: Script, cost: Cost, dispatched: nat, trace: seq<Actor>)
    requires Good(w0) && ScriptOk(w0.actors.Keys, h)
  {
    && dispatched == |trace| && Turns(w0, trace, h) == Some(w)
    && (forall a :: a in trace ==> a in order)
    && Listed(w, order) && Winding(w, h, cost)
  }

  /** The first `n` actors of the list have nothing to handle. */
  ghost predicate NoneReady(w: World, order: seq<Actor>, n: nat)
    requires n <= |order|
  {
    forall j :: 0 <= j < n ==> !Ready(w, order[j])
  }

  lemma NextNotReady(w: World, order: seq<Actor>, n: nat)
    requires n < |order| && NoneReady(w, order, n) && !Ready(w, order[n])
    ensures NoneReady(w, order, n + 1)
  {}

  lemma PumpingTurn(w0: World, w: World, order: seq<Actor>, h: Script, cost: Cost, n: nat, trace: seq<Actor>, a: Actor)
    requires Good(w0) && ScriptOk(w0.actors.Keys, h) && Pumping(w0, w, order, h, cost, n, trace)
    requires a in order && Ready(w, a)
    ensures Pumping(w0, Turn(w, a, n, h), order, h, cost, n + 1, trace + [a])
    ensures Pending(Turn(w, a, n, h), order, cost) < Pending(w, order, cost)
  {
    TurnLowers(w, a, n, h, order, cost);
    WindingKept(w, Turn(w, a, n, h), h, cost);
    assert (trace + [a])[..|trace|] == trace;
  }

  class IpcCore {
    const asks: PendingAsks
    const routes: seq<Route>
    const subs: seq<Route>
    var actors: map<Actor, ActorState>
    var running: bool

    ghost function View(): World
      reads this, asks, asks.table
    {
      World(asks.table[..], asks.nextAskId, actors, routes, subs, running)
    }

    constructor (slots: nat, routes: seq<Route>, subs: seq<Route>, actors: map<Actor, ActorState>)
      requires 0 < slots <= MAX_SLOTS && NULL !in actors && RowsKnown(routes, actors) && RowsKnown(subs, actors)
      ensures Good(View()) && View().actors == actors && View().routes == routes && View().subs == subs
      ensures Drained(View()) && View().next == 1
    {
      asks := new PendingAsks(slots);
      this.routes, this.subs, this.actors, running := routes, subs, actors, true;
      new;
      assert forall i :: 0 <= i < |View().table| ==> View().table[i] == ZERO_SLOT;
    }

    /** ipc_port_send */
    method PostTo(a: Actor, m: Wire) returns (rc: int)
      requires a in actors && m.Readable()
      modifies this`actors
      ensures (View(), rc) == Post(old(View()), a, m)
    {
      var (box, r) := Send(actors[a].box, m);
      actors := actors[a := actors[a].(box := box)];
      rc := r;
    }

    /** ipc_port_send, then apply_mailbox_overflow_policy */
    method DeliverTo(a: Actor, m: Wire) returns (rc: int)
      requires a in actors && m.Readable()
      modifies this`actors
      ensures (View(), rc) == Deliver(old(View()), a, m)
    {
      rc := PostTo(a, m);
      if (rc != -ENOMEM && rc != -EAGAIN) || actors[a].policy != Drop {
        assert actors[a := actors[a]] == actors;
        return;
      }
      actors := actors[a := actors[a].(dropped := Inc32(actors[a].dropped))];
      rc := DELIVERY_DROPPED;
    }

    method AskWithId(c: Call) returns (rc: int, askId: Uint32)
      requires WorldOk(View()) && CallOk(actors.Keys, c) && c.Ask?
      modifies this`actors, asks`nextAskId, asks.table
      ensures Outcome(View(), rc, askId) == ExecAsk(old(View()), c)
    {
      askId := 0;
      if c.self == NULL || c.callback == NULL || !ValidDescriptor(c.request, Cmd) || !ValidDescriptor(c.reply, Cmd) {
        return -EINVAL, 0;
      }
      var (target, prepared) := Prepare(World([], 0, actors, routes, subs, running), c.request);
      if prepared != 0 { return prepared, 0; }
      if c.reply.size > actors[c.self].box.maxPayload { return -EMSGSIZE, 0; }
      var id := asks.ReserveSlot(c.self, EnsureId(c.reply).id, c.callback);
      if id.None? { return -ENOMEM, 0; }
      if c.timed && c.scheduleRc != 0 {
        asks.DiscardAsk(id.value);
        return c.scheduleRc, 0;
      }
      rc := DeliverTo(target, RequestWire(c, id.value));
      if rc != 0 {
        asks.DiscardAsk(id.value);
        return rc, 0;
      }
      return 0, id.value;
    }

    method ReplyTo(c: Call) returns (rc: int)
      requires WorldOk(View()) && CallOk(actors.Keys, c) && c.Reply?
      modifies this`actors, asks.table
      ensures Outcome(View(), rc, 0) == ExecReply(old(View()), c)
    {
      if c.requestMsg.None? || c.requestMsg.value.askId == 0 || !ValidDescriptor(c.desc, Cmd) { return -EINVAL; }
      var r := c.requestMsg.value;
      var fits := ReplyFits(actors, c.desc.size);
      var target;
      rc, target := asks.ClaimAskReply(r.askId, r.replyId, EnsureId(c.desc).id, fits);
      ClaimReplyFits(old(asks.table[..]), r.askId, r.replyId, EnsureId(c.desc).id, actors, c.desc.size);
      if rc != 0 { return; }
      var m := MakeMsg(c.desc, c.payload);
      rc := DeliverTo(target, m.(header := m.header.(askId := r.askId)));
      if rc != 0 { asks.DiscardAsk(r.askId); }
    }

    method ReplyErrorTo(c: Call) returns (rc: int)
      requires WorldOk(View()) && c.ReplyError?
      modifies this`actors, asks.table
      ensures Outcome(View(), rc, 0) == ExecReplyError(old(View()), c)
    {
      if c.requestMsg.None? || c.requestMsg.value.askId == 0 || c.requestMsg.value.replyId == 0 || c.result == 0 {
        return -EINVAL;
      }
      var r := c.requestMsg.value;
      var target;
      rc, target := asks.ClaimAskError(r.askId, r.replyId);
      if rc != 0 { return; }
      rc := PostTo(target, Wire(Header(r.replyId, Cmd, 0, r.askId, 0, c.result), None));
      if rc != 0 { asks.DiscardAsk(r.askId); }
    }

    method AskTimeoutExpired(a: Actor, id: Uint32)
      requires WorldOk(View()) && a in actors
      modifies this`actors, asks.table
      ensures View() == ExecTimeout(old(View()), a, id).world
    {
      var claimed := asks.ClaimAskTimeout(a, id);
      if !claimed { return; }
      var rc := PostTo(a, TimeoutMsg(id));
      if rc != 0 { asks.RollbackAskTimeout(a, id); }
    }

    method AskCancel(self: Actor, id: Uint32) returns (rc: int)
      modifies asks.table
      ensures Outcome(View(), rc, 0) == ExecCancel(old(View()), self, id)
    {
      if self == NULL || id == 0 { return -EINVAL; }
      if !running { return -EPERM; }
      rc := asks.CancelPending(self, id);
    }

    /** publish_prepared_msg */
    method PublishPrepared(m: Wire) returns (firstRc: int)
      requires m.Readable() && RowsKnown(subs, actors)
      modifies this`actors
      ensures (View(), firstRc) == FanOut(old(View()), m, |subs|)
    {
      firstRc := 0;
      var i := 0;
      while i < |subs|
        invariant i <= |subs| && actors.Keys == old(actors.Keys)
        invariant (View(), firstRc) == FanOut(old(View()), m, i)
      {
        if subs[i].msgId == m.header.id {
          var actor, rc := subs[i].actor, -EMSGSIZE;
          if m.header.size <= actors[actor].box.maxPayload {
            rc := DeliverTo(actor, m);
          }
          if firstRc == 0 { firstRc := rc; }
        }
        i := i + 1;
      }
    }

    method Do(c: Call) returns (rc: int, askId: Uint32)
      requires WorldOk(View()) && CallOk(actors.Keys, c)
      modifies this`actors, asks`nextAskId, asks.table
      ensures Outcome(View(), rc, askId) == Exec(old(View()), c)
    {
      rc, askId := 0, 0;
      match c {
        case Ask(_, _, _, _, _, _, _) => rc, askId := AskWithId(c);
        case Reply(_, _, _) => rc := ReplyTo(c);
        case ReplyError(_, _) => rc := ReplyErrorTo(c);
        case Cancel(self, id) => rc := AskCancel(self, id);
        case TimeoutExpired(self, id) => AskTimeoutExpired(self, id);
        case SendCommand(d, payload) =>
          var (target, prepared) := Prepare(World([], 0, actors, routes, subs, running), d);
          rc := prepared;
          if rc == 0 { rc := DeliverTo(target, MakeMsg(d, payload)); }
        case SendTo(a, direct, payload) =>
          rc := if a == NULL || direct.None? then -EINVAL else if !running then -EPERM
                else if direct.value.id == 0 then -EINVAL
                else if direct.value.size > actors[a].box.maxPayload then -EMSGSIZE else 0;
          if rc == 0 { rc := DeliverTo(a, DirectWire(direct.value, payload)); }
        case Publish(d, payload) =>
          rc := -EINVAL;
          if ValidDescriptor(d, Event) { rc := PublishPrepared(MakeMsg(d, payload)); }
      }
    }

    /** One turn: take a message, run the ask section of the dispatcher, then whatever the handler or callback does. */
    method TakeTurn(a: Actor, n: nat, h: Script)
      requires Good(View()) && Ready(View(), a) && ScriptOk(actors.Keys, h)
      modifies this`actors, asks`nextAskId, asks.table
      ensures View() == Turn(old(View()), a, n, h)
    {
      DispatchStaysGood(View(), a);
      var s := actors[a];
      var m := s.box.queue[0];
      actors := actors[a := s.(box := s.box.(queue := s.box.queue[1..]))];
      var callback := asks.ClaimForDispatch(a, m.header);
      assert View() == Dispatch(old(View()), a).0;
      PerformCalls(h(n, a, m, callback));
    }

    method PerformCalls(calls: seq<Call>)
      requires Good(View()) && CallsOk(actors.Keys, calls)
      modifies this`actors, asks`nextAskId, asks.table
      ensures View() == Perform(old(View()), calls)
    {
      var i := 0;
      while i < |calls|
        invariant i <= |calls| && Good(View()) && actors.Keys == old(actors.Keys)
        invariant Perform(View(), calls[i..]) == Perform(old(View()), calls)
      {
        CallStaysGood(View(), calls[i]);
        assert calls[i..][0] == calls[i] && calls[i..][1..] == calls[i + 1..];
        var rc, askId := Do(calls[i]);
        i := i + 1;
      }
    }

    /** A turn while the pump runs. */
    method PumpTurn(ghost w0: World, ghost order: seq<Actor>, h: Script, ghost cost: Cost, n: nat, ghost trace: seq<Actor>, a: Actor)
      requires Good(w0) && ScriptOk(w0.actors.Keys, h) && Pumping(w0, View(), order, h, cost, n, trace)
      requires a in order && Ready(View(), a)
      modifies this`actors, asks`nextAskId, asks.table
      ensures Pumping(w0, View(), order, h, cost, n + 1, trace + [a])
      ensures Pending(View(), order, cost) < Pending(old(View()), order, cost)
    {
      PumpingTurn(w0, View(), order, h, cost, n, trace, a);
      TakeTurn(a, n, h);
    }

    /** One pass over the actor list: a turn for every listed actor that has a message. */
    method Sweep(ghost w0: World, order: seq<Actor>, h: Script, ghost cost: Cost, before: nat, ghost trace0: seq<Actor>)
      returns (dispatched: nat, madeProgress: bool, ghost trace: seq<Actor>)
      requires Good(w0) && ScriptOk(w0.actors.Keys, h) && Pumping(w0, View(), order, h, cost, before, trace0)
      modifies this`actors, asks`nextAskId, asks.table
      ensures Pumping(w0, View(), order, h, cost, dispatched, trace)
      ensures madeProgress ==> Pending(View(), order, cost) < Pending(old(View()), order, cost)
      ensures !madeProgress ==> View() == old(View()) && NoneReady(View(), order, |order|)
    {
      dispatched, madeProgress, trace := before, false, trace0;
      var i := 0;
      while i < |order|
        invariant i <= |order| && Pumping(w0, View(), order, h, cost, dispatched, trace)
        invariant madeProgress ==> Pending(View(), order, cost) < Pending(old(View()), order, cost)
        invariant !madeProgress ==> View() == old(View()) && NoneReady(View(), order, i)
      {
        var a := order[i];
        if actors[a].box.started && actors[a].box.queue != [] {
          PumpTurn(w0, order, h, cost, dispatched, trace, a);
          trace := trace + [a];
          dispatched := dispatched + 1;
          madeProgress := true;
        } else if !madeProgress {
          NextNotReady(View(), order, i);
        }
        i := i + 1;
      }
    }

    /**
     * ipc_test_run_until_idle: sweeps the actor list until a sweep finds nothing to do. It returns the number of
     * dispatches, with every listed mailbox empty, and then no answered or timed-out ask is without its callback.
     */
    method RunUntilIdle(order: seq<Actor>, h: Script, ghost cost: Cost) returns (dispatched: nat, ghost trace: seq<Actor>)
      requires Good(View()) && Listed(View(), order) && ScriptOk(actors.Keys, h) && Winding(View(), h, cost)
      modifies this`actors, asks`nextAskId, asks.table
      ensures dispatched == |trace| && Turns(old(View()), trace, h) == Some(View())
      ensures forall a :: a in trace ==> a in order
      ensures Good(View()) && forall a :: a in order ==> !Ready(View(), a)
      ensures (forall a :: a in actors && (a !in order || !actors[a].box.started) ==> actors[a].box.queue == []) ==> Drained(View())
    {
      ghost var w0 := View();
      dispatched, trace := 0, [];
      var madeProgress := true;
      while madeProgress
        invariant Pumping(w0, View(), order, h, cost, dispatched, trace)
        invariant !madeProgress ==> NoneReady(View(), order, |order|)
        decreases Pending(View(), order, cost), madeProgress
      {
        dispatched, madeProgress, trace := Sweep(w0, order, h, cost, dispatched, trace);
      }
      if Idle(View()) { IdleMeansDrained(View()); }
    }
  }

  /** Whether a reply of `size` bytes fits the asker. */
  function ReplyFits(actors: map<Actor, ActorState>, size: nat): Actor -> bool {
    a => a in actors && size <= actors[a].box.maxPayload
  }

  /** Claiming a reply only asks the fit test about the asker. */
  lemma ClaimReplyFits(t: seq<Slot>, id: Uint32, q: Uint32, d: Uint32, actors: map<Actor, ActorState>, size: nat)
    ensures ClaimReply(t, id, q, d, ReplyFits(actors, size))
         == ClaimReply(t, id, q, d, a => a in actors && size <= actors[a].box.maxPayload)
  {}

  lemma WindingKept(w: World, w': World, h: Script, cost: Cost)
    requires Winding(w, h, cost) && w'.subs == w.subs
    ensures Winding(w', h, cost)
  {
    forall n, a, m: Message, callback
      ensures CallsCost(w', h(n, a, m, callback), cost) < cost(m.header.id)
    {
      CallsCostStable(w, w', h(n, a, m, callback), cost);
    }
  }
}
