/** Registration, sending and dispatch together: a message reaches the handlers that registered for it, and no others. */
module Routing {
  import opened Types
  import opened Mailbox
  import opened Registry
  import opened Core
  import opened CoreDrain

  /** The world runs on the tables that the start-up registrations `log` built. */
  ghost predicate Runs(w: World, maxRoutes: nat, maxSubs: nat, log: seq<Registration>) {
    && WorldOk(w) && Build(maxRoutes, maxSubs, log).Some?
    && w.routes == Build(maxRoutes, maxSubs, log).value.routes && w.subs == Build(maxRoutes, maxSubs, log).value.subs
  }

  /** A message that is not part of an ask: the sender's bytes, or zeros where it passed none. */
  function PlainMessage(id: Uint32, kind: Kind, size: nat, payload: Option<seq<Byte>>): Message {
    Message(Header(id, kind, size, 0, 0, 0), Bytes(payload, size))
  }

  /** What the dispatcher of `a` runs for a message that completes no ask. */
  function HandlerOf(maxRoutes: nat, maxSubs: nat, log: seq<Registration>, a: Actor, m: Message): Option<Handler>
    requires Build(maxRoutes, maxSubs, log).Some?
  {
    LookupHandler(Build(maxRoutes, maxSubs, log).value.bindings, a, m.header.id)
  }

  /** A command sent to a routed actor changes only that actor, and queues there exactly when there is room. */
  lemma RoutedSend(w: World, d: Desc, payload: Option<seq<Byte>>, a: Actor)
    requires WorldOk(w) && ValidDescriptor(d, Cmd) && Covers(payload, d)
    requires a in w.actors && FindRegistered(w.routes, EnsureId(d).id) == a
    ensures var o := ExecSend(w, d, payload);
            && o.world.actors.Keys == w.actors.Keys
            && (forall b :: b in w.actors && b != a ==> o.world.actors[b] == w.actors[b])
            && (o.rc == 0 <==> HasRoom(w.actors[a].box, d.size))
            && o.world.actors[a].box.queue == w.actors[a].box.queue + (if o.rc == 0 then [PlainMessage(EnsureId(d).id, Cmd, d.size, payload)] else [])
  {
    CopiedBytes(MakeMsg(d, payload));
    DeliverAppends(w, a, MakeMsg(d, payload));
  }

  /**
   * A command that was registered goes to the actor that registered it, is queued there exactly when that mailbox has
   * room for it, touches nobody else, and is handled by the very handler registered for it.
   */
  lemma SentCommandRunsItsHandler(w: World, maxRoutes: nat, maxSubs: nat, log: seq<Registration>, k: nat,
                                  d: Desc, payload: Option<seq<Byte>>)
    requires Runs(w, maxRoutes, maxSubs, log) && k < |log| && log[k].kind == Cmd
    requires ValidDescriptor(d, Cmd) && EnsureId(d).id == log[k].msgId && Covers(payload, d)
    ensures var o, a, m := ExecSend(w, d, payload), log[k].actor, PlainMessage(log[k].msgId, Cmd, d.size, payload);
            && a in w.actors && o.world.actors.Keys == w.actors.Keys
            && (forall b :: b in w.actors && b != a ==> o.world.actors[b] == w.actors[b])
            && (o.rc == 0 <==> HasRoom(w.actors[a].box, d.size))
            && o.world.actors[a].box.queue == w.actors[a].box.queue + (if o.rc == 0 then [m] else [])
            && (!Shadowed(log, k) ==> HandlerOf(maxRoutes, maxSubs, log, a, m) == Some(log[k].handler))
  {
    CommandReachesItsActor(maxRoutes, maxSubs, log, k);
    StartupTables(maxRoutes, maxSubs, log);
    DispatchRunsItsBinding(maxRoutes, maxSubs, log, k);
    var i := RowOf(log, k);
    assert w.routes[i].actor == log[k].actor;
    RoutedSend(w, d, payload, log[k].actor);
  }

  /** A command no actor registered is refused and touches nothing. */
  lemma UnregisteredCommandIsRefused(w: World, maxRoutes: nat, maxSubs: nat, log: seq<Registration>,
                                     d: Desc, payload: Option<seq<Byte>>)
    requires Runs(w, maxRoutes, maxSubs, log) && ValidDescriptor(d, Cmd) && Covers(payload, d)
    ensures ExecSend(w, d, payload) == Outcome(w, -ENOENT, 0)
       <==> forall k :: 0 <= k < |log| && log[k].kind == Cmd ==> log[k].msgId != EnsureId(d).id
  {
    StartupTables(maxRoutes, maxSubs, log);
    var id := EnsureId(d).id;
    var i := RouteFrom(w.routes, id, 0);
    if i < |w.routes| {
      var k := RowSource(log, Cmd, i);
    } else {
      forall k | 0 <= k < |log| && log[k].kind == Cmd
        ensures log[k].msgId != id
      {
        var j := RowOf(log, k);
      }
    }
  }

  lemma {:induction false} EachSubscribesOnce(maxRoutes: nat, maxSubs: nat, log: seq<Registration>, id: Uint32)
    requires Build(maxRoutes, maxSubs, log).Some?
    ensures SubscribedOnce(Build(maxRoutes, maxSubs, log).value.subs, id)
  {
    if log != [] { EachSubscribesOnce(maxRoutes, maxSubs, log[..|log| - 1], id); }
  }

  /** Actor `a` registered for the event with this id. */
  ghost predicate Subscribes(log: seq<Registration>, id: Uint32, a: Actor) {
    exists k :: 0 <= k < |log| && log[k].kind == Event && log[k].msgId == id && log[k].actor == a
  }

  /**
   * A published event is queued once at exactly the actors that subscribed to it and have room for it, whatever
   * happens at the others, and each of them handles it with the very handler it registered.
   */
  lemma PublishedEventRunsItsHandlers(w: World, maxRoutes: nat, maxSubs: nat, log: seq<Registration>,
                                      d: Desc, payload: Option<seq<Byte>>, a: Actor)
    requires Runs(w, maxRoutes, maxSubs, log) && a in w.actors
    requires ValidDescriptor(d, Event) && Covers(payload, d)
    ensures var id := EnsureId(d).id;
            var w', m := ExecPublish(w, d, payload).world, PlainMessage(id, Event, d.size, payload);
            && w'.actors.Keys == w.actors.Keys
            && w'.actors[a].box.queue
                 == w.actors[a].box.queue + (if Subscribes(log, id, a) && HasRoom(w.actors[a].box, d.size) then [m] else [])
            && forall k :: 0 <= k < |log| && log[k].kind == Event && log[k].msgId == id && log[k].actor == a && !Shadowed(log, k) ==>
                 HandlerOf(maxRoutes, maxSubs, log, a, m) == Some(log[k].handler)
  {
    var m, id := MakeMsg(d, payload), EnsureId(d).id;
    CopiedBytes(m);
    EachSubscribesOnce(maxRoutes, maxSubs, log, id);
    EventReachesItsActors(maxRoutes, maxSubs, log, id, a);
    assert Subscribed(w.subs, id, a) == SubscribedBefore(w.subs, id, a, |w.subs|);
    FanOutOffersEachOnce(w, m, |w.subs|);
    OfferDelivers(w, a, m);
    StartupTables(maxRoutes, maxSubs, log);
    forall k | 0 <= k < |log| && log[k].kind == Event && log[k].msgId == id && log[k].actor == a && !Shadowed(log, k)
      ensures HandlerOf(maxRoutes, maxSubs, log, a, Copied(m)) == Some(log[k].handler)
    {
      DispatchRunsItsBinding(maxRoutes, maxSubs, log, k);
    }
  }
}
