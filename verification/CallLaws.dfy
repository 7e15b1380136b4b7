/**
 * What each call of the API answers and does, case by case, in terms of slots, mailboxes and spelled-out messages only, and
 * what follows for an ask: its cancel, its error reply and its timeout end it, each in its own way.
 */
module CallLaws {
  import opened Types
  import opened Mailbox
  import opened AskTable
  import opened Registry
  import opened Core
  import opened CoreDrain

  // ------------------------------------------------------------------ how worlds change

  /** Nothing, byte for byte: what memset leaves. */
  const CLEARED := Slot(false, false, false, 0, 0, 0, 0)

  /** Slot `i` is pending under this id. */
  predicate PendsAt(t: seq<Slot>, i: nat, id: Uint32) {
    i < |t| && t[i].used && t[i].askId == id
  }

  function WithSlot(w: World, i: nat, s: Slot): World
    requires i < |w.table|
  {
    w.(table := w.table[i := s])
  }

  /** One more message at the end of the mailbox of `a`. */
  function WithMessage(w: World, a: Actor, m: Message): World
    requires a in w.actors
  {
    var s := w.actors[a];
    w.(actors := w.actors[a := s.(box := s.box.(queue := s.box.queue + [m]))])
  }

  /** One more dropped message of `a`, on a uint32_t. */
  function WithDrop(w: World, a: Actor): World
    requires a in w.actors
  {
    var s := w.actors[a];
    w.(actors := w.actors[a := s.(dropped := if s.dropped == 0xFFFF_FFFF then 0 else s.dropped + 1)])
  }

  /** The code of a send that the mailbox of `a` does not take, before any overflow policy. */
  function Refusal(b: Box, size: nat): int {
    if !b.started then -EPERM else if size > b.maxPayload then -EMSGSIZE else -ENOMEM
  }

  // ------------------------------------------------------------------ sends

  /** A send is taken exactly when there is room; otherwise it changes nothing, or, with the drop policy, counts a drop. */
  lemma DeliverLaw(w: World, a: Actor, m: Wire)
    requires a in w.actors && m.Readable()
    ensures var (w', rc) := Deliver(w, a, m);
            var s, msg := w.actors[a], Message(m.header, Bytes(m.data, m.header.size));
            && (HasRoom(s.box, m.header.size) ==> rc == 0 && w' == WithMessage(w, a, msg))
            && (Drops(s, m.header.size) ==> rc == 1 && w' == WithDrop(w, a))
            && (!HasRoom(s.box, m.header.size) && !Drops(s, m.header.size) ==> rc == Refusal(s.box, m.header.size) && w' == w)
  {
    CopiedBytes(m);
    var (w', rc) := Deliver(w, a, m);
    if !HasRoom(w.actors[a].box, m.header.size) && !Drops(w.actors[a], m.header.size) {
      assert w'.actors == w.actors;
    }
  }

  /** Error replies and timeouts do not look at the policy. */
  lemma PostLaw(w: World, a: Actor, m: Wire)
    requires a in w.actors && m.Readable()
    ensures var (w', rc) := Post(w, a, m);
            var s, msg := w.actors[a], Message(m.header, Bytes(m.data, m.header.size));
            && (HasRoom(s.box, m.header.size) ==> rc == 0 && w' == WithMessage(w, a, msg))
            && (!HasRoom(s.box, m.header.size) ==> rc == Refusal(s.box, m.header.size) && w' == w)
  {
    CopiedBytes(m);
    var (w', rc) := Post(w, a, m);
    if !HasRoom(w.actors[a].box, m.header.size) { assert w'.actors == w.actors; }
  }

  /** What a policed send of `m` to `a` does and answers, starting from `w`, is what `w'` and `rc` are. */
  ghost predicate Delivered(w: World, a: Actor, m: Message, w': World, rc: int)
    requires a in w.actors
  {
    var s, size := w.actors[a], m.header.size;
    if HasRoom(s.box, size) then rc == 0 && w' == WithMessage(w, a, m)
    else if Drops(s, size) then rc == 1 && w' == WithDrop(w, a)
    else rc == Refusal(s.box, size) && w' == w
  }

  /** A descriptor the API accepts where it wants this kind. */
  predicate Usable(d: Desc, kind: Kind) {
    d.kind == kind && d.name.Some?
  }

  /** ipc_send: to the actor the command is routed to, with the caller's bytes. */
  lemma SendLaw(w: World, d: Desc, payload: Option<seq<Byte>>)
    requires WorldOk(w) && Covers(payload, d)
    ensures var o := ExecSend(w, d, payload);
            && o.askId == 0
            && (!Usable(d, Cmd) ==> o.rc == -EINVAL && o.world == w)
            && (Usable(d, Cmd) ==>
                  var id := EnsureId(d).id;
                  var a := FindRegistered(w.routes, id);
                  && (a == NULL ==> o.rc == -ENOENT && o.world == w)
                  && (a != NULL ==>
                        && a in w.actors
                        && (d.size > w.actors[a].box.maxPayload ==> o.rc == -EMSGSIZE && o.world == w)
                        && (d.size <= w.actors[a].box.maxPayload ==>
                              Delivered(w, a, Message(Header(id, Cmd, d.size, 0, 0, 0), Bytes(payload, d.size)), o.world, o.rc))))
  {
    var a := Prepare(w, d).0;
    if Prepare(w, d).1 == 0 { DeliverLaw(w, a, MakeMsg(d, payload)); }
  }

  /** ipc_send_to: to the actor it is given, either kind, while the framework runs. */
  lemma SendToLaw(w: World, a: Actor, direct: Option<Desc>, payload: Option<seq<Byte>>)
    requires WorldOk(w) && (direct.Some? ==> Covers(payload, direct.value)) && (a == NULL || a in w.actors)
    ensures var o := ExecSendTo(w, a, direct, payload);
            && o.askId == 0
            && (a == NULL || direct.None? ==> o.rc == -EINVAL && o.world == w)
            && (a != NULL && direct.Some? ==>
                  var d := direct.value;
                  && (!w.running ==> o.rc == -EPERM && o.world == w)
                  && (w.running && d.id == 0 ==> o.rc == -EINVAL && o.world == w)
                  && (w.running && d.id != 0 && d.size > w.actors[a].box.maxPayload ==> o.rc == -EMSGSIZE && o.world == w)
                  && (w.running && d.id != 0 && d.size <= w.actors[a].box.maxPayload ==>
                        Delivered(w, a, Message(Header(d.id, d.kind, d.size, 0, 0, 0), Bytes(payload, d.size)), o.world, o.rc)))
  {
    if a != NULL && direct.Some? && direct.value.size <= w.actors[a].box.maxPayload {
      DeliverLaw(w, a, DirectWire(direct.value, payload));
    }
  }

  // ------------------------------------------------------------------ publish

  /** One subscriber after a message was offered to it: it has it, or counted its drop, or is as before. */
  function Offered(s: ActorState, m: Message): ActorState {
    if HasRoom(s.box, m.header.size) then s.(box := s.box.(queue := s.box.queue + [m]))
    else if Drops(s, m.header.size) then s.(dropped := if s.dropped == 0xFFFF_FFFF then 0 else s.dropped + 1)
    else s
  }

  function OfferCode(s: ActorState, size: nat): int {
    if size > s.box.maxPayload then -EMSGSIZE
    else if HasRoom(s.box, size) then 0
    else if Drops(s, size) then 1
    else Refusal(s.box, size)
  }

  lemma OfferLaw(w: World, a: Actor, m: Wire)
    requires a in w.actors && m.Readable()
    ensures Offer(w, a, m).0.actors[a] == Offered(w.actors[a], Message(m.header, Bytes(m.data, m.header.size)))
    ensures Offer(w, a, m).1 == OfferCode(w.actors[a], m.header.size)
  {
    DeliverLaw(w, a, m);
  }

  /**
   * ipc_publish: every subscriber is offered the event once, with the caller's bytes; nobody else is touched; and the
   * answer is that of the first subscription row that is not served.
   */
  lemma PublishLaw(w: World, d: Desc, payload: Option<seq<Byte>>)
    requires WorldOk(w) && Covers(payload, d) && (d.name.Some? ==> SubscribedOnce(w.subs, EnsureId(d).id))
    ensures var o := ExecPublish(w, d, payload);
            && o.askId == 0
            && (!Usable(d, Event) ==> o.rc == -EINVAL && o.world == w)
            && (Usable(d, Event) ==>
                  var id := EnsureId(d).id;
                  var m := Message(Header(id, Event, d.size, 0, 0, 0), Bytes(payload, d.size));
                  && o.world == w.(actors := o.world.actors) && o.world.actors.Keys == w.actors.Keys
                  && (forall a :: a in w.actors ==>
                        o.world.actors[a] == if Subscribed(w.subs, id, a) then Offered(w.actors[a], m) else w.actors[a])
                  && (o.rc == 0 <==> forall k :: 0 <= k < |w.subs| && w.subs[k].msgId == id ==> OfferCode(w.actors[w.subs[k].actor], d.size) == 0)
                  && (o.rc != 0 ==> exists k :: 0 <= k < |w.subs| && FirstUnserved(w, id, d.size, k, o.rc)))
  {
    if Usable(d, Event) {
      var id, m, n := EnsureId(d).id, MakeMsg(d, payload), |w.subs|;
      CopiedBytes(m);
      FanOutAppends(w, m, n);
      FanOutOffersEachOnce(w, m, n);
      forall a | a in w.actors
        ensures Offer(w, a, m).0.actors[a] == Offered(w.actors[a], Message(m.header, Bytes(m.data, m.header.size)))
        ensures Offer(w, a, m).1 == OfferCode(w.actors[a], m.header.size)
        ensures SubscribedBefore(w.subs, id, a, n) == Subscribed(w.subs, id, a)
      {
        OfferLaw(w, a, m);
      }
      FirstFailure(w, m);
    }
  }

  /** Row `k` is the first of this event that is not served, with this code. */
  predicate FirstUnserved(w: World, id: Uint32, size: nat, k: nat, rc: int)
    requires k < |w.subs| && RowsKnown(w.subs, w.actors)
  {
    && w.subs[k].msgId == id && rc == OfferCode(w.actors[w.subs[k].actor], size)
    && forall j :: 0 <= j < k && w.subs[j].msgId == id ==> OfferCode(w.actors[w.subs[j].actor], size) == 0
  }

  lemma FirstFailure(w: World, m: Wire)
    requires m.Readable() && RowsKnown(w.subs, w.actors) && SubscribedOnce(w.subs, m.header.id)
    ensures var rc := FanOut(w, m, |w.subs|).1;
            && (rc == 0 ==> forall k :: 0 <= k < |w.subs| && w.subs[k].msgId == m.header.id ==> OfferCode(w.actors[w.subs[k].actor], m.header.size) == 0)
            && (rc != 0 ==> exists k :: 0 <= k < |w.subs| && FirstUnserved(w, m.header.id, m.header.size, k, rc))
  {
    var rc := FanOut(w, m, |w.subs|).1;
    FanOutOffersEachOnce(w, m, |w.subs|);
    forall k | 0 <= k < |w.subs|
      ensures Offer(w, w.subs[k].actor, m).1 == OfferCode(w.actors[w.subs[k].actor], m.header.size)
    {
      OfferLaw(w, w.subs[k].actor, m);
    }
    if rc != 0 {
      var k :| 0 <= k < |w.subs| && w.subs[k].msgId == m.header.id && Offer(w, w.subs[k].actor, m).1 == rc
        && forall j :: 0 <= j < k && w.subs[j].msgId == m.header.id ==> Offer(w, w.subs[j].actor, m).1 == 0;
      assert FirstUnserved(w, m.header.id, m.header.size, k, rc);
    }
  }

  // ------------------------------------------------------------------ asks

  /** The request an ask under this id sends. */
  function RequestOf(c: Call, id: Uint32): Message
    requires c.Ask? && c.request.name.Some? && c.reply.name.Some?
  {
    Message(Header(EnsureId(c.request).id, Cmd, c.request.size, id, EnsureId(c.reply).id, 0), Bytes(c.payload, c.request.size))
  }

  /** What an ask answers, with all its checks in order. */
  function AskCode(w: World, c: Call): int
    requires c.Ask? && (c.self == NULL || c.self in w.actors) && RowsKnown(w.routes, w.actors)
  {
    if c.self == NULL || c.callback == NULL || !Usable(c.request, Cmd) || !Usable(c.reply, Cmd) then -EINVAL
    else
      var target := FindRegistered(w.routes, EnsureId(c.request).id);
      if target == NULL then -ENOENT
      else if c.request.size > w.actors[target].box.maxPayload || c.reply.size > w.actors[c.self].box.maxPayload then -EMSGSIZE
      else if forall i :: 0 <= i < |w.table| ==> w.table[i].used then -ENOMEM
      else if c.timed && c.scheduleRc != 0 then c.scheduleRc
      else if HasRoom(w.actors[target].box, c.request.size) then 0
      else if Drops(w.actors[target], c.request.size) then 1
      else Refusal(w.actors[target].box, c.request.size)
  }

  /** ipc_ask: when it succeeds, and what it answers otherwise. */
  lemma AskLaw(w: World, c: Call)
    requires WorldOk(w) && CallOk(w.actors.Keys, c) && c.Ask?
    ensures ExecAsk(w, c).rc == AskCode(w, c)
  {
    if ReachesTable(w, c) {
      var replyId := EnsureId(c.reply).id;
      ReserveFailsIffFull(w.table, w.next, c.self, replyId, c.callback);
      var (t, next, id) := Reserve(w.table, w.next, c.self, replyId, c.callback);
      if id.Some? {
        DeliverLaw(w.(table := t, next := next), Prepare(w, c.request).0, RequestWire(c, id.value));
      }
    }
  }

  /** A successful ask changes one slot, the id counter and the target's mailbox, and nothing else. */
  lemma AskEffect(w: World, c: Call)
    requires WorldOk(w) && CallOk(w.actors.Keys, c) && c.Ask? && ExecAsk(w, c).rc == 0
    ensures c.request.name.Some? && c.reply.name.Some? && FindRegistered(w.routes, EnsureId(c.request).id) in w.actors
    ensures var o, target := ExecAsk(w, c), FindRegistered(w.routes, EnsureId(c.request).id);
            exists i :: (0 <= i < |w.table| && !w.table[i].used && (forall j :: 0 <= j < i ==> w.table[j].used)
              && o.world == WithMessage(WithSlot(w, i, Slot(true, false, false, o.askId, EnsureId(c.reply).id, c.self, c.callback)),
                                        target, RequestOf(c, o.askId)).(next := o.world.next))
  {
    SuccessfulAsk(w, c);
    var replyId := EnsureId(c.reply).id;
    ReserveThenDiscard(w.table, w.next, c.self, replyId, c.callback);
    var (t, next, id) := Reserve(w.table, w.next, c.self, replyId, c.callback);
    if id.Some? {
      DeliverLaw(w.(table := t, next := next), Prepare(w, c.request).0, RequestWire(c, id.value));
      var i := FreeFrom(w.table, 0);
      assert ExecAsk(w, c).world == WithMessage(WithSlot(w, i, Slot(true, false, false, id.value, replyId, c.self, c.callback)),
                                                Prepare(w, c.request).0, RequestOf(c, id.value)).(next := next);
    }
  }

  // ------------------------------------------------------------------ cancels

  /** ipc_ask_cancel: it ends exactly the caller's own pending ask, and says why when it does not. */
  lemma CancelLaw(w: World, self: Actor, id: Uint32)
    requires TableOk(w.table)
    ensures var o := ExecCancel(w, self, id);
            && o.askId == 0
            && (self == NULL || id == 0 ==> o.rc == -EINVAL && o.world == w)
            && (self != NULL && id != 0 && !w.running ==> o.rc == -EPERM && o.world == w)
            && (self != NULL && id != 0 && w.running ==>
                  && (forall i :: 0 <= i < |w.table| && PendsAt(w.table, i, id) && w.table[i].actor == self ==>
                        o.rc == 0 && o.world == WithSlot(w, i, CLEARED))
                  && ((forall i :: 0 <= i < |w.table| && PendsAt(w.table, i, id) ==> w.table[i].actor != self) ==>
                        o.rc == -ENOENT && o.world == w))
  {
    forall i | 0 <= i < |w.table| && PendsAt(w.table, i, id)
      ensures Find(w.table, id) == i
    {
      FindUnique(w.table, i);
    }
    assert Find(w.table, id) < |w.table| ==> PendsAt(w.table, Find(w.table, id), id);
  }

  /** A cancel succeeds if and only if the caller has such an ask pending and the framework runs. */
  lemma CancelSucceedsIff(w: World, self: Actor, id: Uint32)
    requires TableOk(w.table)
    ensures ExecCancel(w, self, id).rc == 0
       <==> self != NULL && id != 0 && w.running && exists i :: 0 <= i < |w.table| && PendsAt(w.table, i, id) && w.table[i].actor == self
  {
    CancelLaw(w, self, id);
  }

  /** No slot is pending under this id. */
  predicate NotPending(t: seq<Slot>, id: Uint32) {
    forall i :: 0 <= i < |t| ==> !PendsAt(t, i, id)
  }

  /** An id that is not pending: replies and error replies answer -ENOENT, a timeout and a dispatch do nothing about it. */
  lemma NotPendingLaw(w: World, id: Uint32, c: Call, a: Actor, h: Header)
    requires WorldOk(w) && id != 0 && NotPending(w.table, id)
    ensures c.Reply? && CallOk(w.actors.Keys, c) && c.requestMsg.Some? && c.requestMsg.value.askId == id && Usable(c.desc, Cmd) ==>
              ExecReply(w, c) == Outcome(w, -ENOENT, 0)
    ensures c.ReplyError? && c.requestMsg.Some? && c.requestMsg.value.askId == id && c.requestMsg.value.replyId != 0 && c.result != 0 ==>
              ExecReplyError(w, c) == Outcome(w, -ENOENT, 0)
    ensures a in w.actors ==> ExecTimeout(w, a, id).world == w
    ensures h.askId == id ==> ClaimDispatch(w.table, a, h) == (w.table, NULL)
  {
    var i := Find(w.table, id);
    assert i < |w.table| ==> PendsAt(w.table, i, id);
  }

  /**
   * The law of cancelling: once a cancel has answered 0, replies and error replies to that id answer -ENOENT, its
   * timeout does nothing, and no message dispatched for it runs a callback.
   */
  lemma CancelledAskIsGone(w: World, self: Actor, id: Uint32, c: Call, a: Actor, h: Header)
    requires WorldOk(w) && ExecCancel(w, self, id).rc == 0
    ensures var w' := ExecCancel(w, self, id).world;
            && WorldOk(w') && NotPending(w'.table, id)
            && (c.Reply? && CallOk(w'.actors.Keys, c) && c.requestMsg.Some? && c.requestMsg.value.askId == id && Usable(c.desc, Cmd) ==>
                  ExecReply(w', c) == Outcome(w', -ENOENT, 0))
            && (c.ReplyError? && c.requestMsg.Some? && c.requestMsg.value.askId == id && c.requestMsg.value.replyId != 0 && c.result != 0 ==>
                  ExecReplyError(w', c) == Outcome(w', -ENOENT, 0))
            && (a in w'.actors ==> ExecTimeout(w', a, id).world == w')
            && (h.askId == id ==> ClaimDispatch(w'.table, a, h) == (w'.table, NULL))
  {
    CancelLaw(w, self, id);
    CancelSucceedsIff(w, self, id);
    var i :| 0 <= i < |w.table| && PendsAt(w.table, i, id) && w.table[i].actor == self;
    UpdateKeepsTable(w.table, i, CLEARED);
    var w' := ExecCancel(w, self, id).world;
    assert w' == WithSlot(w, i, CLEARED);
    NotPendingLaw(w', id, c, a, h);
  }

  // ------------------------------------------------------------------ replies

  /** The reply names a pending ask in slot `i`, has the type it waits for, and comes first. */
  predicate AnswersSlot(w: World, c: Call, i: nat)
    requires c.Reply?
  {
    && c.requestMsg.Some? && c.requestMsg.value.askId != 0 && Usable(c.desc, Cmd)
    && PendsAt(w.table, i, c.requestMsg.value.askId) && !w.table[i].replySent
    && w.table[i].replyId == EnsureId(c.desc).id == c.requestMsg.value.replyId
  }

  /** What becomes of a claimed ask whose answer was sent with this result. */
  ghost predicate AnswerSent(w: World, i: nat, m: Message, policed: bool, w': World, rc: int)
    requires i < |w.table| && w.table[i].actor in w.actors
  {
    var s, size := w.table[i], m.header.size;
    var st := w.actors[s.actor];
    if HasRoom(st.box, size) then rc == 0 && w' == WithMessage(WithSlot(w, i, s.(replySent := true)), s.actor, m)
    else if policed && Drops(st, size) then rc == 1 && w' == WithDrop(WithSlot(w, i, CLEARED), s.actor)
    else rc == Refusal(st.box, size) && w' == WithSlot(w, i, CLEARED)
  }

  /**
   * ipc_reply: an ask waiting for this reply gets it, whole, exactly when it fits and the asker's mailbox has room;
   * otherwise the ask is over. Any other reply changes nothing, and the answer says why.
   */
  lemma ReplyLaw(w: World, c: Call)
    requires WorldOk(w) && CallOk(w.actors.Keys, c) && c.Reply?
    ensures var o := ExecReply(w, c);
            && o.askId == 0
            && (c.requestMsg.None? || c.requestMsg.value.askId == 0 || !Usable(c.desc, Cmd) ==> o.rc == -EINVAL && o.world == w)
            && (c.requestMsg.Some? && c.requestMsg.value.askId != 0 && Usable(c.desc, Cmd) ==>
                  var id := c.requestMsg.value.askId;
                  && (NotPending(w.table, id) ==> o.rc == -ENOENT && o.world == w)
                  && forall i :: 0 <= i < |w.table| && PendsAt(w.table, i, id) ==>
                       var s := w.table[i];
                       && (AnswersSlot(w, c, i) ==>
                             && s.actor in w.actors
                             && (c.desc.size <= w.actors[s.actor].box.maxPayload ==>
                                   AnswerSent(w, i, Message(Header(s.replyId, Cmd, c.desc.size, id, 0, 0), Bytes(c.payload, c.desc.size)), true,
                                              o.world, o.rc))
                             && (c.desc.size > w.actors[s.actor].box.maxPayload ==> o.rc == -EMSGSIZE && o.world == WithSlot(w, i, CLEARED)))
                       && (!AnswersSlot(w, c, i) ==>
                             && o.world == w
                             && o.rc == if s.replyId == EnsureId(c.desc).id == c.requestMsg.value.replyId then -EALREADY else -EINVAL))
  {
    if c.requestMsg.Some? && c.requestMsg.value.askId != 0 && Usable(c.desc, Cmd) {
      var id := c.requestMsg.value.askId;
      assert Find(w.table, id) < |w.table| ==> PendsAt(w.table, Find(w.table, id), id);
      forall i | 0 <= i < |w.table| && PendsAt(w.table, i, id)
        ensures Find(w.table, id) == i
      {
        FindUnique(w.table, i);
      }
      var i := Find(w.table, id);
      if i < |w.table| && AnswersSlot(w, c, i) { ClaimedReplyLaw(w, c, i); }
    }
  }

  lemma ClaimedReplyLaw(w: World, c: Call, i: nat)
    requires WorldOk(w) && CallOk(w.actors.Keys, c) && c.Reply? && AnswersSlot(w, c, i)
    ensures var o, s, id := ExecReply(w, c), w.table[i], c.requestMsg.value.askId;
            && s.actor in w.actors
            && (c.desc.size <= w.actors[s.actor].box.maxPayload ==>
                  AnswerSent(w, i, Message(Header(s.replyId, Cmd, c.desc.size, id, 0, 0), Bytes(c.payload, c.desc.size)), true, o.world, o.rc))
            && (c.desc.size > w.actors[s.actor].box.maxPayload ==> o.rc == -EMSGSIZE && o.world == WithSlot(w, i, CLEARED))
  {
    var id := c.requestMsg.value.askId;
    FindUnique(w.table, i);
    var w1 := WithSlot(w, i, w.table[i].(replySent := true));
    UpdateKeepsTable(w.table, i, w1.table[i]);
    FindUnique(w1.table, i);
    var m := MakeMsg(c.desc, c.payload);
    DeliverLaw(w1, w.table[i].actor, m.(header := m.header.(askId := id)));
    assert Discard(w1.table, id) == w.table[i := CLEARED];
  }

  /** ipc_reply_error: likewise, with the caller's result in place of a payload, and past the drop policy. */
  lemma ReplyErrorLaw(w: World, c: Call)
    requires WorldOk(w) && c.ReplyError?
    ensures var o := ExecReplyError(w, c);
            && o.askId == 0
            && (c.requestMsg.None? || c.requestMsg.value.askId == 0 || c.requestMsg.value.replyId == 0 || c.result == 0 ==>
                  o.rc == -EINVAL && o.world == w)
            && (c.requestMsg.Some? && c.requestMsg.value.askId != 0 && c.requestMsg.value.replyId != 0 && c.result != 0 ==>
                  var r := c.requestMsg.value;
                  && (NotPending(w.table, r.askId) ==> o.rc == -ENOENT && o.world == w)
                  && forall i :: 0 <= i < |w.table| && PendsAt(w.table, i, r.askId) ==>
                       var s := w.table[i];
                       && (s.replyId != r.replyId ==> o.rc == -EINVAL && o.world == w)
                       && (s.replyId == r.replyId && s.replySent ==> o.rc == -EALREADY && o.world == w)
                       && (s.replyId == r.replyId && !s.replySent ==>
                             s.actor in w.actors
                             && AnswerSent(w, i, Message(Header(s.replyId, Cmd, 0, r.askId, 0, c.result), []), false, o.world, o.rc)))
  {
    if c.requestMsg.Some? && c.requestMsg.value.askId != 0 && c.requestMsg.value.replyId != 0 && c.result != 0 {
      var r := c.requestMsg.value;
      assert Find(w.table, r.askId) < |w.table| ==> PendsAt(w.table, Find(w.table, r.askId), r.askId);
      forall i | 0 <= i < |w.table| && PendsAt(w.table, i, r.askId)
        ensures Find(w.table, r.askId) == i
      {
        FindUnique(w.table, i);
      }
      var i := Find(w.table, r.askId);
      if i < |w.table| && w.table[i].replyId == r.replyId && !w.table[i].replySent {
        var w1 := WithSlot(w, i, w.table[i].(replySent := true));
        UpdateKeepsTable(w.table, i, w1.table[i]);
        FindUnique(w1.table, i);
        PostLaw(w1, w.table[i].actor, Wire(Header(r.replyId, Cmd, 0, r.askId, 0, c.result), None));
        assert Discard(w1.table, r.askId) == w.table[i := CLEARED];
      }
    }
  }

  // ------------------------------------------------------------------ timeouts and dispatch

  /** ipc_ask_timeout_expired: a pending ask of this actor whose timeout is not queued gets it, or stays open. */
  lemma TimeoutLaw(w: World, a: Actor, id: Uint32)
    requires WorldOk(w) && a in w.actors
    ensures var w', box := ExecTimeout(w, a, id).world, w.actors[a].box;
            && (forall i :: 0 <= i < |w.table| && PendsAt(w.table, i, id) && w.table[i].actor == a && !w.table[i].timeoutQueued ==>
                  w' == if HasRoom(box, 0)
                        then WithMessage(WithSlot(w, i, w.table[i].(replySent := true, timeoutQueued := true)), a,
                                         Message(Header(0xFFFF_FFFF, Cmd, 0, id, 0, -ETIMEDOUT), []))
                        else WithSlot(w, i, w.table[i].(replySent := false, timeoutQueued := false)))
            && ((forall i :: 0 <= i < |w.table| && PendsAt(w.table, i, id) ==> w.table[i].actor != a || w.table[i].timeoutQueued) ==> w' == w)
  {
    assert Find(w.table, id) < |w.table| ==> PendsAt(w.table, Find(w.table, id), id);
    forall i | 0 <= i < |w.table| && PendsAt(w.table, i, id)
      ensures Find(w.table, id) == i
    {
      FindUnique(w.table, i);
    }
    var i := Find(w.table, id);
    if i < |w.table| && w.table[i].actor == a && !w.table[i].timeoutQueued {
      var w1 := WithSlot(w, i, w.table[i].(replySent := true, timeoutQueued := true));
      UpdateKeepsTable(w.table, i, w1.table[i]);
      FindUnique(w1.table, i);
      PostLaw(w1, a, TimeoutMsg(id));
      assert RollbackTimeout(w1.table, a, id) == w.table[i := w.table[i].(replySent := false, timeoutQueued := false)];
    }
  }

  /** A message with this header ends the ask in slot `i` when `a` dispatches it. */
  predicate Ends(t: seq<Slot>, i: nat, a: Actor, h: Header) {
    && PendsAt(t, i, h.askId) && t[i].actor == a
    && (h.id == t[i].replyId || (h.id == 0xFFFF_FFFF && t[i].timeoutQueued))
  }

  /** The world without the oldest message of `a`. */
  function WithoutHead(w: World, a: Actor): World
    requires Ready(w, a)
  {
    var s := w.actors[a];
    w.(actors := w.actors[a := s.(box := s.box.(queue := s.box.queue[1..]))])
  }

  /** Dispatch: the oldest message is taken; the ask it ends is freed and its own callback is the one to run. */
  lemma DispatchLaw(w: World, a: Actor)
    requires WorldOk(w) && Ready(w, a)
    ensures var m := w.actors[a].box.queue[0];
            && (forall i :: 0 <= i < |w.table| && Ends(w.table, i, a, m.header) ==>
                  Dispatch(w, a) == (WithSlot(WithoutHead(w, a), i, CLEARED), m, w.table[i].callback))
            && ((forall i :: 0 <= i < |w.table| ==> !Ends(w.table, i, a, m.header)) ==> Dispatch(w, a) == (WithoutHead(w, a), m, NULL))
  {
    var h := w.actors[a].box.queue[0].header;
    forall i | 0 <= i < |w.table| && PendsAt(w.table, i, h.askId)
      ensures Find(w.table, h.askId) == i
    {
      FindUnique(w.table, i);
    }
    var i := Find(w.table, h.askId);
    assert i < |w.table| ==> PendsAt(w.table, i, h.askId);
  }

  /**
   * Round trip of an error: the error reply to a pending ask is queued for the asker with the replier's result, and
   * dispatching it there runs the ask's callback and frees exactly its slot.
   */
  lemma ErrorReplyRoundTrip(w: World, c: Call, i: nat)
    requires Good(w) && c.ReplyError? && ExecReplyError(w, c).rc == 0
    requires c.requestMsg.Some? ==> PendsAt(w.table, i, c.requestMsg.value.askId)
    ensures c.requestMsg.Some? && w.table[i].actor in w.actors
    ensures var s, m := w.table[i], Message(Header(w.table[i].replyId, Cmd, 0, w.table[i].askId, 0, c.result), []);
            && ExecReplyError(w, c).world == WithMessage(WithSlot(w, i, s.(replySent := true)), s.actor, m)
            && ClaimDispatch(ExecReplyError(w, c).world.table, s.actor, m.header) == (w.table[i := CLEARED], s.callback)
  {
    ReplyErrorLaw(w, c);
    AnsweredSlotEnds(w, i, w.table[i].(replySent := true), w.table[i].replyId);
  }

  /** Round trip of a timeout. */
  lemma TimeoutRoundTrip(w: World, i: nat)
    requires Good(w) && i < |w.table| && w.table[i].used && !w.table[i].timeoutQueued
    requires w.table[i].actor in w.actors && HasRoom(w.actors[w.table[i].actor].box, 0)
    ensures var s, m := w.table[i], Message(Header(0xFFFF_FFFF, Cmd, 0, w.table[i].askId, 0, -ETIMEDOUT), []);
            var w' := ExecTimeout(w, s.actor, s.askId).world;
            && w' == WithMessage(WithSlot(w, i, s.(replySent := true, timeoutQueued := true)), s.actor, m)
            && ClaimDispatch(w'.table, s.actor, m.header) == (w.table[i := CLEARED], s.callback)
  {
    var s := w.table[i];
    assert PendsAt(w.table, i, s.askId);
    TimeoutLaw(w, s.actor, s.askId);
    AnsweredSlotEnds(w, i, s.(replySent := true, timeoutQueued := true), 0xFFFF_FFFF);
  }

  lemma AnsweredSlotEnds(w: World, i: nat, s: Slot, id: Uint32)
    requires WorldOk(w) && i < |w.table| && w.table[i].used
    requires s == w.table[i].(replySent := true, timeoutQueued := s.timeoutQueued)
    requires id == s.replyId || (id == 0xFFFF_FFFF && s.timeoutQueued)
    ensures forall h: Header :: h.id == id && h.askId == s.askId ==>
              ClaimDispatch(w.table[i := s], s.actor, h) == (w.table[i := CLEARED], s.callback)
  {
    UpdateKeepsTable(w.table, i, s);
    FindUnique(w.table[i := s], i);
    assert w.table[i := s][i := ZERO_SLOT] == w.table[i := CLEARED];
  }
}
