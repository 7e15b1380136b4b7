/**
 * Turns of the deterministic port's pump (src/port/test/ipc_test_port.c): an actor takes its oldest message and its
 * handler makes calls. A measure on the queued messages says when the pump must come to an end.
 */
module CoreSystem {
  import opened Types
  import opened Mailbox
  import opened AskTable
  import opened Registry
  import opened Core
  import opened CoreDrain

  /**
   * The calls made when actor `a` handles message `m` as the `n`-th dispatch: by the callback of the ask that the message
   * completes or, when that is NULL, by the handler the actor has for it.
   */
  type Script = (nat, Actor, Message, Callback) -> seq<Call>

  // ------------------------------------------------------------------ one turn of the pump

  /** What a script may do: any finite list of well-formed calls, whatever was dispatched. */
  ghost predicate ScriptOk(actors: set<Actor>, h: Script) {
    forall n, a, m, callback :: CallsOk(actors, h(n, a, m, callback))
  }

  ghost predicate CallsOk(actors: set<Actor>, calls: seq<Call>) {
    forall i :: 0 <= i < |calls| ==> CallOk(actors, calls[i])
  }

  /** The same actors, started or not as before. */
  ghost predicate SameActors(w: World, w': World) {
    w'.actors.Keys == w.actors.Keys && forall a :: a in w.actors ==> w'.actors[a].box.started == w.actors[a].box.started
  }

  /** Performs a handler's calls in order. */
  ghost function Perform(w: World, calls: seq<Call>): (w': World)
    requires Good(w) && CallsOk(w.actors.Keys, calls)
    ensures Good(w') && SameActors(w, w')
    decreases |calls|
  {
    if calls == [] then w
    else
      CallStaysGood(w, calls[0]);
      Perform(Exec(w, calls[0]).world, calls[1..])
  }

  /** Actor `a` takes its oldest message and its handler runs to completion. */
  ghost function Turn(w: World, a: Actor, n: nat, h: Script): (w': World)
    requires Good(w) && Ready(w, a) && ScriptOk(w.actors.Keys, h)
    ensures Good(w') && SameActors(w, w')
  {
    var (w1, m, callback) := Dispatch(w, a);
    DispatchStaysGood(w, a);
    assert w1.actors.Keys == w.actors.Keys;
    Perform(w1, h(n, a, m, callback))
  }

  /** The world after the actors in `trace` took a turn each, in order; None when one of them had no message. */
  ghost function Turns(w: World, trace: seq<Actor>, h: Script): (r: Option<World>)
    requires Good(w) && ScriptOk(w.actors.Keys, h)
    ensures r.Some? ==> Good(r.value) && SameActors(w, r.value)
    decreases |trace|
  {
    if trace == [] then Some(w)
    else
      var n := |trace| - 1;
      var before := Turns(w, trace[..n], h);
      if before.None? || !Ready(before.value, trace[n]) then None else Some(Turn(before.value, trace[n], n, h))
  }

  // ------------------------------------------------------------------ why the pump ends

  /** What a queued message may still cause, by message id. */
  type Cost = Uint32 -> nat

  function QueueCost(q: seq<Message>, cost: Cost): nat
    decreases |q|
  {
    if q == [] then 0 else cost(q[0].header.id) + QueueCost(q[1..], cost)
  }

  /** The queued messages of the first `n` actors of the list. */
  function ListCost(actors: map<Actor, ActorState>, order: seq<Actor>, n: nat, cost: Cost): nat
    requires n <= |order| && forall i :: 0 <= i < |order| ==> order[i] in actors
  {
    if n == 0 then 0 else ListCost(actors, order, n - 1, cost) + QueueCost(actors[order[n - 1]].box.queue, cost)
  }

  /** The most a call can add to the queues. */
  function CallCost(w: World, c: Call, cost: Cost): nat {
    match c
    case Ask(_, request, _, _, _, _, _) => if request.name.Some? then cost(EnsureId(request).id) else 0
    case Reply(_, desc, _) => if desc.name.Some? then cost(EnsureId(desc).id) else 0
    case ReplyError(requestMsg, _) => if requestMsg.Some? then cost(requestMsg.value.replyId) else 0
    case Cancel(_, _) => 0
    case TimeoutExpired(_, _) => cost(TIMEOUT_MSG_ID)
    case SendCommand(desc, _) => if desc.name.Some? then cost(EnsureId(desc).id) else 0
    case SendTo(_, direct, _) => if direct.Some? then cost(direct.value.id) else 0
    case Publish(desc, _) => if desc.name.Some? then |w.subs| * cost(EnsureId(desc).id) else 0
  }

  function CallsCost(w: World, calls: seq<Call>, cost: Cost): nat
    decreases |calls|
  {
    if calls == [] then 0 else CallCost(w, calls[0], cost) + CallsCost(w, calls[1..], cost)
  }

  /** Each handler sends, all together, messages that cost less than the one it handles. */
  ghost predicate Winding(w: World, h: Script, cost: Cost) {
    forall n, a, m: Message, callback :: CallsCost(w, h(n, a, m, callback), cost) < cost(m.header.id)
  }

  lemma {:induction false} QueueCostAppend(q: seq<Message>, m: Message, cost: Cost)
    ensures QueueCost(q + [m], cost) == QueueCost(q, cost) + cost(m.header.id)
    decreases |q|
  {
    if q == [] {
      assert QueueCost([m][1..], cost) == 0;
    } else {
      assert (q + [m])[1..] == q[1..] + [m];
      QueueCostAppend(q[1..], m, cost);
    }
  }

  /** The cost moves with the one mailbox that changes. */
  lemma {:induction false} ListCostMoves(s: map<Actor, ActorState>, s': map<Actor, ActorState>, order: seq<Actor>,
                                         n: nat, cost: Cost, a: Actor)
    requires n <= |order| && NoRepeats(order) && s.Keys == s'.Keys && a in s
    requires forall i :: 0 <= i < |order| ==> order[i] in s
    requires forall b :: b in s && b != a ==> s'[b].box.queue == s[b].box.queue
    ensures if a in order[..n]
            then ListCost(s', order, n, cost) + QueueCost(s[a].box.queue, cost)
              == ListCost(s, order, n, cost) + QueueCost(s'[a].box.queue, cost)
            else ListCost(s', order, n, cost) == ListCost(s, order, n, cost)
  {
    if n > 0 {
      ListCostMoves(s, s', order, n - 1, cost, a);
      assert order[..n] == order[..n - 1] + [order[n - 1]];
    }
  }

  ghost predicate Listed(w: World, order: seq<Actor>) {
    NoRepeats(order) && forall i :: 0 <= i < |order| ==> order[i] in w.actors
  }

  /** The pump's measure. */
  ghost function Pending(w: World, order: seq<Actor>, cost: Cost): nat
    requires Listed(w, order)
  {
    ListCost(w.actors, order, |order|, cost)
  }

  lemma SendCost(w: World, w': World, a: Actor, m: Wire, order: seq<Actor>, cost: Cost)
    requires Listed(w, order) && a in w.actors && m.Readable() && w'.actors.Keys == w.actors.Keys
    requires forall b :: b in w.actors && b != a ==> w'.actors[b].box.queue == w.actors[b].box.queue
    requires w'.actors[a].box.queue == w.actors[a].box.queue || w'.actors[a].box.queue == w.actors[a].box.queue + [Copied(m)]
    ensures Pending(w', order, cost) <= Pending(w, order, cost) + cost(m.header.id)
  {
    ListCostMoves(w.actors, w'.actors, order, |order|, cost, a);
    QueueCostAppend(w.actors[a].box.queue, Copied(m), cost);
  }

  lemma DeliverCost(w: World, a: Actor, m: Wire, order: seq<Actor>, cost: Cost)
    requires Listed(w, order) && a in w.actors && m.Readable()
    ensures Deliver(w, a, m).0.actors.Keys == Post(w, a, m).0.actors.Keys == w.actors.Keys
    ensures Pending(Deliver(w, a, m).0, order, cost) <= Pending(w, order, cost) + cost(m.header.id)
    ensures Pending(Post(w, a, m).0, order, cost) <= Pending(w, order, cost) + cost(m.header.id)
  {
    DeliverAppends(w, a, m);
    SendCost(w, Deliver(w, a, m).0, a, m, order, cost);
    SendCost(w, Post(w, a, m).0, a, m, order, cost);
  }

  lemma {:induction false} FanOutCost(w: World, m: Wire, n: nat, order: seq<Actor>, cost: Cost)
    requires Listed(w, order) && m.Readable() && n <= |w.subs| && RowsKnown(w.subs, w.actors)
    ensures Listed(FanOut(w, m, n).0, order)
    ensures Pending(FanOut(w, m, n).0, order, cost) <= Pending(w, order, cost) + n * cost(m.header.id)
  {
    if n > 0 {
      FanOutCost(w, m, n - 1, order, cost);
      DeliverCost(FanOut(w, m, n - 1).0, w.subs[n - 1].actor, m, order, cost);
      OneMore(n - 1, cost(m.header.id));
    }
  }

  lemma OneMore(n: nat, x: nat)
    ensures (n + 1) * x == n * x + x && n * x >= 0
  {}

  /** A call adds at most its cost. */
  lemma ExecCost(w: World, c: Call, order: seq<Actor>, cost: Cost)
    requires Good(w) && CallOk(w.actors.Keys, c) && Listed(w, order)
    ensures Listed(Exec(w, c).world, order)
    ensures Pending(Exec(w, c).world, order, cost) <= Pending(w, order, cost) + CallCost(w, c, cost)
  {
    CallStaysGood(w, c);
    match c
    case Ask(_, _, _, _, _, _, _) => AskCost(w, c, order, cost);
    case Reply(_, _, _) => ReplyCost(w, c, order, cost);
    case ReplyError(_, _) => ReplyErrorCost(w, c, order, cost);
    case Cancel(_, _) =>
    case TimeoutExpired(self, id) =>
      DeliverCost(w.(table := ClaimTimeout(w.table, self, id).0), self, TimeoutMsg(id), order, cost);
    case SendCommand(d, payload) =>
      if Prepare(w, d).1 == 0 { DeliverCost(w, Prepare(w, d).0, MakeMsg(d, payload), order, cost); }
    case SendTo(a, direct, payload) =>
      if a != NULL && direct.Some? { DeliverCost(w, a, DirectWire(direct.value, payload), order, cost); }
    case Publish(d, payload) =>
      if ValidDescriptor(d, Event) { FanOutCost(w, MakeMsg(d, payload), |w.subs|, order, cost); }
  }

  lemma AskCost(w: World, c: Call, order: seq<Actor>, cost: Cost)
    requires Good(w) && CallOk(w.actors.Keys, c) && c.Ask? && Listed(w, order) && Listed(ExecAsk(w, c).world, order)
    ensures Pending(ExecAsk(w, c).world, order, cost) <= Pending(w, order, cost) + CallCost(w, c, cost)
  {
    if c.self != NULL && c.callback != NULL && c.reply.name.Some? && Prepare(w, c.request).1 == 0 {
      var replyId := EnsureId(c.reply).id;
      var (t, next, id) := Reserve(w.table, w.next, c.self, replyId, c.callback);
      if id.Some? {
        DeliverCost(w.(table := t, next := next), Prepare(w, c.request).0, RequestWire(c, id.value), order, cost);
      }
    }
  }

  lemma ReplyCost(w: World, c: Call, order: seq<Actor>, cost: Cost)
    requires Good(w) && CallOk(w.actors.Keys, c) && c.Reply? && Listed(w, order) && Listed(ExecReply(w, c).world, order)
    ensures Pending(ExecReply(w, c).world, order, cost) <= Pending(w, order, cost) + CallCost(w, c, cost)
  {
    if c.requestMsg.Some? && c.requestMsg.value.askId != 0 && ValidDescriptor(c.desc, Cmd) {
      var r := c.requestMsg.value;
      var claim := ClaimReply(w.table, r.askId, r.replyId, EnsureId(c.desc).id,
                              a => a in w.actors && c.desc.size <= w.actors[a].box.maxPayload);
      if claim.rc == 0 {
        var m := MakeMsg(c.desc, c.payload);
        DeliverCost(w.(table := claim.table), claim.target, m.(header := m.header.(askId := r.askId)), order, cost);
      }
    }
  }

  lemma ReplyErrorCost(w: World, c: Call, order: seq<Actor>, cost: Cost)
    requires Good(w) && c.ReplyError? && Listed(w, order) && Listed(ExecReplyError(w, c).world, order)
    ensures Pending(ExecReplyError(w, c).world, order, cost) <= Pending(w, order, cost) + CallCost(w, c, cost)
  {
    if c.requestMsg.Some? && c.requestMsg.value.askId != 0 && c.requestMsg.value.replyId != 0 && c.result != 0 {
      var r := c.requestMsg.value;
      var claim := ClaimError(w.table, r.askId, r.replyId);
      if claim.rc == 0 {
        DeliverCost(w.(table := claim.table), claim.target, Wire(Header(r.replyId, Cmd, 0, r.askId, 0, c.result), None), order, cost);
      }
    }
  }

  lemma {:induction false} PerformCost(w: World, calls: seq<Call>, order: seq<Actor>, cost: Cost)
    requires Good(w) && Listed(w, order) && CallsOk(w.actors.Keys, calls)
    ensures Listed(Perform(w, calls), order) && Perform(w, calls).subs == w.subs
    ensures Pending(Perform(w, calls), order, cost) <= Pending(w, order, cost) + CallsCost(w, calls, cost)
    decreases |calls|
  {
    if calls != [] {
      CallStaysGood(w, calls[0]);
      ExecCost(w, calls[0], order, cost);
      var w1 := Exec(w, calls[0]).world;
      SubsFixed(w, calls[0]);
      PerformCost(w1, calls[1..], order, cost);
      CallsCostStable(w, w1, calls[1..], cost);
    }
  }

  lemma SubsFixed(w: World, c: Call)
    requires WorldOk(w) && CallOk(w.actors.Keys, c)
    ensures Exec(w, c).world.subs == w.subs
  {}

  lemma {:induction false} CallsCostStable(w: World, w': World, calls: seq<Call>, cost: Cost)
    requires w'.subs == w.subs
    ensures CallsCost(w', calls, cost) == CallsCost(w, calls, cost)
    decreases |calls|
  {
    if calls != [] { CallsCostStable(w, w', calls[1..], cost); }
  }

  /** A turn of a listed actor lowers the measure. */
  lemma TurnLowers(w: World, a: Actor, n: nat, h: Script, order: seq<Actor>, cost: Cost)
    requires Good(w) && Listed(w, order) && Ready(w, a) && a in order && ScriptOk(w.actors.Keys, h) && Winding(w, h, cost)
    ensures Listed(Turn(w, a, n, h), order) && Turn(w, a, n, h).subs == w.subs
    ensures Pending(Turn(w, a, n, h), order, cost) < Pending(w, order, cost)
  {
    var (w1, m, callback) := Dispatch(w, a);
    DispatchStaysGood(w, a);
    assert order[..|order|] == order;
    ListCostMoves(w.actors, w1.actors, order, |order|, cost, a);
    assert w1.actors.Keys == w.actors.Keys;
    PerformCost(w1, h(n, a, m, callback), order, cost);
    CallsCostStable(w, w1, h(n, a, m, callback), cost);
  }

  // ------------------------------------------------------------------ ranked handlers

  function Power(b: nat, r: nat): (p: nat)
    ensures b > 0 ==> p > 0
  {
    if r == 0 then 1 else b * Power(b, r - 1)
  }

  /** The ids a call may post. */
  predicate PostsBelow(c: Call, rank: Uint32 -> nat, r: nat) {
    match c
    case Ask(_, request, _, _, _, _, _) => request.name.Some? ==> rank(EnsureId(request).id) < r
    case Reply(_, desc, _) => desc.name.Some? ==> rank(EnsureId(desc).id) < r
    case ReplyError(requestMsg, _) => requestMsg.Some? ==> rank(requestMsg.value.replyId) < r
    case Cancel(_, _) => true
    case TimeoutExpired(_, _) => rank(TIMEOUT_MSG_ID) < r
    case SendCommand(desc, _) => desc.name.Some? ==> rank(EnsureId(desc).id) < r
    case SendTo(_, direct, _) => direct.Some? ==> rank(direct.value.id) < r
    case Publish(desc, _) => desc.name.Some? ==> rank(EnsureId(desc).id) < r
  }

  lemma {:induction false} PowerMonotone(b: nat, q: nat, r: nat)
    requires b > 0 && q <= r
    ensures Power(b, q) <= Power(b, r)
  {
    if q < r {
      PowerMonotone(b, q, r - 1);
      assert b * Power(b, r - 1) >= Power(b, r - 1);
    }
  }

  lemma {:induction false} RankedCallsCost(w: World, calls: seq<Call>, rank: Uint32 -> nat, b: nat, r: nat)
    requires b > 0 && r > 0 && forall i :: 0 <= i < |calls| ==> PostsBelow(calls[i], rank, r)
    ensures CallsCost(w, calls, id => Power(b, rank(id))) <= |calls| * ((|w.subs| + 1) * Power(b, r - 1))
    decreases |calls|
  {
    if calls != [] {
      var unit := Power(b, r - 1);
      forall q: nat | q < r ensures Power(b, q) <= unit { PowerMonotone(b, q, r - 1); }
      OneMore(|w.subs|, unit);
      if calls[0].Publish? && calls[0].desc.name.Some? {
        MulMonotone(|w.subs|, Power(b, rank(EnsureId(calls[0].desc).id)), unit);
      }
      RankedCallsCost(w, calls[1..], rank, b, r);
      OneMore(|calls| - 1, (|w.subs| + 1) * unit);
    }
  }

  lemma Budget(n: nat, most: nat, f: nat, unit: nat)
    requires n <= most && unit > 0
    ensures n * (f * unit) < (most * f + 1) * unit
  {
    MulMonotone(f * unit, n, most);
    assert n * (f * unit) <= most * (f * unit);
    assert (most * f + 1) * unit == most * (f * unit) + unit;
  }

  lemma MulMonotone(n: nat, x: nat, y: nat)
    requires x <= y
    ensures n * x <= n * y
  {}

  /**
   * Handlers that make at most `most` calls, each posting only messages of a lower rank than the one handled,
   * wind down: a message of rank r costs (most * (subscriptions + 1) + 1)^r.
   */
  lemma RankedHandlersWindDown(w: World, h: Script, rank: Uint32 -> nat, most: nat)
    requires forall n, a, m, callback :: |h(n, a, m, callback)| <= most
    requires forall n, a, m: Message, callback, i :: 0 <= i < |h(n, a, m, callback)| ==> PostsBelow(h(n, a, m, callback)[i], rank, rank(m.header.id))
    ensures Winding(w, h, id => Power(most * (|w.subs| + 1) + 1, rank(id)))
  {
    var b := most * (|w.subs| + 1) + 1;
    var cost := id => Power(b, rank(id));
    forall n, a, m: Message, callback
      ensures CallsCost(w, h(n, a, m, callback), cost) < cost(m.header.id)
    {
      var r, calls := rank(m.header.id), h(n, a, m, callback);
      if calls != [] {
        if r == 0 {
          RankZeroCostsNothing(w, calls, rank, cost);
        } else {
          RankedCallsCost(w, calls, rank, b, r);
          Budget(|calls|, most, |w.subs| + 1, Power(b, r - 1));
        }
      }
    }
  }

  lemma {:induction false} RankZeroCostsNothing(w: World, calls: seq<Call>, rank: Uint32 -> nat, cost: Cost)
    requires forall i :: 0 <= i < |calls| ==> PostsBelow(calls[i], rank, 0)
    ensures CallsCost(w, calls, cost) == 0
    decreases |calls|
  {
    if calls != [] { RankZeroCostsNothing(w, calls[1..], rank, cost); }
  }
}
