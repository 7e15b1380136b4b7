/**
 * Runs of API calls and dispatches, each taken as one step: no answered or timed-out ask is ever left
 * without a message that will run its callback, failed calls leave no trace in the ask table, and an
 * ask, its reply and the dispatch of that reply fit together.
 */
module CoreDrain {
  import opened Types
  import opened Mailbox
  import opened AskTable
  import opened Registry
  import opened Core

  // ------------------------------------------------------------------ sends only append

  /** Every mailbox keeps what it holds, in place, and its configuration. */
  ghost predicate QueuesGrow(w: World, w': World) {
    && w'.actors.Keys == w.actors.Keys
    && forall a :: a in w.actors ==>
         && w.actors[a].box.queue <= w'.actors[a].box.queue
         && w'.actors[a].box == w.actors[a].box.(queue := w'.actors[a].box.queue)
  }

  /** The same world up to mailboxes and drop counters. */
  ghost predicate SameTables(w: World, w': World) {
    w'.next == w.next && w'.table == w.table && w'.routes == w.routes && w'.subs == w.subs && w'.running == w.running
  }

  lemma DeliverAppends(w: World, a: Actor, m: Wire)
    requires a in w.actors && m.Readable()
    ensures var (w', rc) := Deliver(w, a, m);
            && QueuesGrow(w, w') && SameTables(w, w')
            && (rc == 0 ==> w'.actors[a].box.queue == w.actors[a].box.queue + [Copied(m)])
            && (rc != 0 ==> w'.actors[a].box == w.actors[a].box)
            && (forall b :: b in w.actors && b != a ==> w'.actors[b] == w.actors[b])
    ensures var (w', rc) := Post(w, a, m);
            && QueuesGrow(w, w') && SameTables(w, w')
            && (rc == 0 ==> w'.actors[a].box.queue == w.actors[a].box.queue + [Copied(m)])
            && (rc != 0 ==> w' == w)
            && (forall b :: b in w.actors && b != a ==> w'.actors[b] == w.actors[b])
  {
    var (w1, rc) := Post(w, a, m);
    if rc != 0 { assert w1.actors == w.actors; }
  }

  lemma GrowthComposes(w: World, w1: World, w2: World)
    requires QueuesGrow(w, w1) && SameTables(w, w1) && QueuesGrow(w1, w2) && SameTables(w1, w2)
    ensures QueuesGrow(w, w2) && SameTables(w, w2)
  {
    forall a | a in w.actors
      ensures w.actors[a].box.queue <= w2.actors[a].box.queue
    {
      assert w.actors[a].box.queue <= w1.actors[a].box.queue <= w2.actors[a].box.queue;
    }
  }

  lemma OfferAppends(w: World, a: Actor, m: Wire)
    requires a in w.actors && m.Readable()
    ensures QueuesGrow(w, Offer(w, a, m).0) && SameTables(w, Offer(w, a, m).0)
  {
    DeliverAppends(w, a, m);
  }

  lemma {:induction false} FanOutAppends(w: World, m: Wire, n: nat)
    requires m.Readable() && n <= |w.subs| && RowsKnown(w.subs, w.actors)
    ensures QueuesGrow(w, FanOut(w, m, n).0) && SameTables(w, FanOut(w, m, n).0)
  {
    if n > 0 {
      FanOutAppends(w, m, n - 1);
      var w1, row := FanOut(w, m, n - 1).0, w.subs[n - 1];
      if row.msgId == m.header.id {
        OfferAppends(w1, row.actor, m);
        GrowthComposes(w, w1, Offer(w1, row.actor, m).0);
        assert FanOut(w, m, n).0 == Offer(w1, row.actor, m).0;
      } else {
        assert FanOut(w, m, n).0 == w1;
      }
    }
  }

  // ------------------------------------------------------------------ every answer has its message

  /** Some message in the asker's mailbox will complete this slot. */
  ghost predicate HasAnswer(w: World, s: Slot) {
    && s.actor in w.actors
    && exists j :: (0 <= j < |w.actors[s.actor].box.queue|
                    && Completes(s, s.actor, w.actors[s.actor].box.queue[j].header))
  }

  ghost predicate AllAnswered(w: World) {
    forall i :: 0 <= i < |w.table| && w.table[i].used && w.table[i].replySent ==> HasAnswer(w, w.table[i])
  }

  ghost predicate Good(w: World) {
    WorldOk(w) && AllAnswered(w)
  }

  /** An answer survives any growth of the mailboxes. */
  lemma AnswersSurvive(w: World, w': World)
    requires Good(w) && QueuesGrow(w, w')
    ensures forall i :: 0 <= i < |w.table| && w.table[i].used && w.table[i].replySent ==> HasAnswer(w', w.table[i])
  {
    forall i | 0 <= i < |w.table| && w.table[i].used && w.table[i].replySent
      ensures HasAnswer(w', w.table[i])
    {
      var s := w.table[i];
      var j :| 0 <= j < |w.actors[s.actor].box.queue| && Completes(s, s.actor, w.actors[s.actor].box.queue[j].header);
      assert w'.actors[s.actor].box.queue[j] == w.actors[s.actor].box.queue[j];
    }
  }

  /** A step that grows mailboxes and rewrites at most slot `i`, answering it if it marks it answered, stays good. */
  lemma OneSlotStep(w: World, w': World, i: nat, s: Slot)
    requires Good(w) && QueuesGrow(w, w') && w'.routes == w.routes && w'.subs == w.subs
    requires i < |w.table| && w'.table == w.table[i := s] && TableOk(w'.table)
    requires s.used ==> s.actor in w.actors
    requires s.used && s.replySent ==> HasAnswer(w', s)
    ensures Good(w')
  {
    AnswersSurvive(w, w');
  }

  lemma SameTableStep(w: World, w': World)
    requires Good(w) && QueuesGrow(w, w') && w'.routes == w.routes && w'.subs == w.subs && w'.table == w.table
    ensures Good(w')
  {
    AnswersSurvive(w, w');
  }

  lemma LastAnswers(w: World, s: Slot, m: Message)
    requires s.actor in w.actors && Completes(s, s.actor, m.header)
    requires w.actors[s.actor].box.queue != [] && w.actors[s.actor].box.queue[|w.actors[s.actor].box.queue| - 1] == m
    ensures HasAnswer(w, s)
  {}

  // ------------------------------------------------------------------ asks

  /** What a reserved slot looks like, and that discarding it restores the table. */
  lemma ReserveThenDiscard(t: seq<Slot>, next: Uint32, self: Actor, replyId: Uint32, callback: Callback)
    requires TableOk(t) && |t| <= MAX_SLOTS && self != NULL && callback != NULL
    ensures var (t', next', id) := Reserve(t, next, self, replyId, callback);
            && (id.None? ==> t' == t)
            && (id.Some? ==>
                  var i := FreeFrom(t, 0);
                  && i < |t| && t' == t[i := Slot(true, false, false, id.value, replyId, self, callback)]
                  && TableOk(t') && Find(t', id.value) == i && id.value != 0
                  && Discard(t', id.value) == t && CancelAsk(t', self, id.value) == (t, 0))
  {
    ReserveKeepsTable(t, next, self, replyId, callback);
    AllocIdFresh(t, next, 0);
    var (t', next', id) := Reserve(t, next, self, replyId, callback);
    if id.Some? {
      var i := FreeFrom(t, 0);
      FindUnique(t', i);
      assert t'[i := ZERO_SLOT] == t;
    }
  }

  /** Whether an ask gets as far as the ask table. */
  ghost predicate ReachesTable(w: World, c: Call)
    requires WorldOk(w) && CallOk(w.actors.Keys, c) && c.Ask?
  {
    c.self != NULL && c.callback != NULL && c.reply.name.Some? && c.reply.kind == Cmd
    && Prepare(w, c.request).1 == 0 && c.reply.size <= w.actors[c.self].box.maxPayload
  }

  lemma ReservedAskAppends(w: World, c: Call, target: Actor, id: Uint32)
    requires c.Ask? && c.request.name.Some? && c.reply.name.Some? && Covers(c.payload, c.request) && target in w.actors
    ensures var o := AskReserved(w, c, target, id);
            && QueuesGrow(w, o.world) && o.world.routes == w.routes && o.world.subs == w.subs
            && o.world.table == (if o.rc != 0 then Discard(w.table, id) else w.table)
            && o.askId == (if o.rc != 0 then 0 else id)
            && (o.rc == 0 ==> o.world.actors[target].box.queue == w.actors[target].box.queue + [Copied(RequestWire(c, id))])
  {
    DeliverAppends(w, target, RequestWire(c, id));
  }

  /** A failed ask, wherever it fails, leaves the ask table as it was and hands out no id. */
  lemma FailedAskLeaksNothing(w: World, c: Call)
    requires WorldOk(w) && CallOk(w.actors.Keys, c) && c.Ask?
    ensures var o := ExecAsk(w, c);
            && QueuesGrow(w, o.world) && o.world.routes == w.routes && o.world.subs == w.subs
            && (o.rc != 0 ==> o.world.table == w.table && o.askId == 0)
  {
    if ReachesTable(w, c) {
      var replyId := EnsureId(c.reply).id;
      ReserveThenDiscard(w.table, w.next, c.self, replyId, c.callback);
      var (t, next, id) := Reserve(w.table, w.next, c.self, replyId, c.callback);
      if id.Some? {
        ReservedAskAppends(w.(table := t, next := next), c, Prepare(w, c.request).0, id.value);
      }
    }
  }

  /**
   * A successful ask takes one free slot under a fresh nonzero id and queues the request, carrying that id and
   * the expected reply id, at the end of the mailbox the request's command is routed to; cancelling it
   * restores the table.
   */
  lemma SuccessfulAsk(w: World, c: Call)
    requires WorldOk(w) && CallOk(w.actors.Keys, c) && c.Ask? && ExecAsk(w, c).rc == 0
    ensures c.request.name.Some? && c.reply.name.Some?
    ensures var o := ExecAsk(w, c);
            var i := FreeFrom(w.table, 0);
            var target := FindRegistered(w.routes, EnsureId(c.request).id);
            && i < |w.table| && o.askId != 0 && Find(w.table, o.askId) == |w.table|
            && o.world.table == w.table[i := Slot(true, false, false, o.askId, EnsureId(c.reply).id, c.self, c.callback)]
            && target in w.actors && QueuesGrow(w, o.world)
            && o.world.actors[target].box.queue
                 == w.actors[target].box.queue
                    + [Message(Header(EnsureId(c.request).id, Cmd, c.request.size, o.askId, EnsureId(c.reply).id, 0),
                               Bytes(c.payload, c.request.size))]
            && CancelAsk(o.world.table, c.self, o.askId) == (w.table, 0)
  {
    assert ReachesTable(w, c);
    var replyId := EnsureId(c.reply).id;
    ReserveThenDiscard(w.table, w.next, c.self, replyId, c.callback);
    AllocIdFresh(w.table, w.next, 0);
    var (t, next, id) := Reserve(w.table, w.next, c.self, replyId, c.callback);
    if id.Some? {
      ReservedAskAppends(w.(table := t, next := next), c, Prepare(w, c.request).0, id.value);
      CopiedBytes(RequestWire(c, id.value));
    }
  }

  lemma AskStaysGood(w: World, c: Call)
    requires Good(w) && CallOk(w.actors.Keys, c) && c.Ask?
    ensures Good(ExecAsk(w, c).world) && QueuesGrow(w, ExecAsk(w, c).world)
  {
    var o := ExecAsk(w, c);
    FailedAskLeaksNothing(w, c);
    if o.rc == 0 {
      SuccessfulAsk(w, c);
      var i := FreeFrom(w.table, 0);
      var s := Slot(true, false, false, o.askId, EnsureId(c.reply).id, c.self, c.callback);
      UpdateKeepsTable(w.table, i, s);
      OneSlotStep(w, o.world, i, s);
    } else {
      SameTableStep(w, o.world);
    }
  }

  // ------------------------------------------------------------------ answers

  lemma ReplyStaysGood(w: World, c: Call)
    requires Good(w) && CallOk(w.actors.Keys, c) && c.Reply?
    ensures Good(ExecReply(w, c).world) && QueuesGrow(w, ExecReply(w, c).world)
  {
    if c.requestMsg.Some? && c.requestMsg.value.askId != 0 && ValidDescriptor(c.desc, Cmd) {
      var r := c.requestMsg.value;
      var fits := a => a in w.actors && c.desc.size <= w.actors[a].box.maxPayload;
      var claim := ClaimReply(w.table, r.askId, r.replyId, EnsureId(c.desc).id, fits);
      SectionsKeepTable(w.table, NULL, r.askId, r.replyId, EnsureId(c.desc).id, fits, BLANK.header);
      var i := Find(w.table, r.askId);
      if claim.rc == 0 {
        var m := MakeMsg(c.desc, c.payload);
        var wire := m.(header := m.header.(askId := r.askId));
        ClaimedAnswerStaysGood(w, claim.table, r.askId, claim.target, wire, true);
      } else if claim.rc == -EMSGSIZE {
        OneSlotStep(w, w.(table := claim.table), i, ZERO_SLOT);
      }
    }
  }

  lemma ReplyErrorStaysGood(w: World, c: Call)
    requires Good(w) && c.ReplyError?
    ensures Good(ExecReplyError(w, c).world) && QueuesGrow(w, ExecReplyError(w, c).world)
  {
    if c.requestMsg.Some? && c.requestMsg.value.askId != 0 && c.requestMsg.value.replyId != 0 && c.result != 0 {
      var r := c.requestMsg.value;
      var claim := ClaimError(w.table, r.askId, r.replyId);
      if claim.rc == 0 {
        ClaimedAnswerStaysGood(w, claim.table, r.askId, claim.target,
                               Wire(Header(r.replyId, Cmd, 0, r.askId, 0, c.result), None), false);
      }
    }
  }

  /** The unlocked half of both replies: the answer is queued, or the slot is discarded. */
  lemma ClaimedAnswerStaysGood(w: World, t: seq<Slot>, id: Uint32, target: Actor, m: Wire, policed: bool)
    requires Good(w) && m.Readable() && m.header.askId == id
    requires var i := Find(w.table, id);
             && i < |w.table| && t == w.table[i := w.table[i].(replySent := true)]
             && w.table[i].actor == target && w.table[i].replyId == m.header.id
    ensures var (w1, rc) := if policed then Deliver(w.(table := t), target, m) else Post(w.(table := t), target, m);
            var w' := if rc != 0 then w1.(table := Discard(w1.table, id)) else w1;
            Good(w') && QueuesGrow(w, w')
  {
    var i := Find(w.table, id);
    var s := w.table[i].(replySent := true);
    DeliverAppends(w.(table := t), target, m);
    UpdateKeepsTable(w.table, i, s);
    UpdateKeepsTable(w.table, i, ZERO_SLOT);
    FindUnique(t, i);
    var (w1, rc) := if policed then Deliver(w.(table := t), target, m) else Post(w.(table := t), target, m);
    if rc != 0 {
      assert Discard(t, id) == w.table[i := ZERO_SLOT];
      OneSlotStep(w, w1.(table := Discard(w1.table, id)), i, ZERO_SLOT);
    } else {
      LastAnswers(w1, s, Copied(m));
      OneSlotStep(w, w1, i, s);
    }
  }

  lemma TimeoutStaysGood(w: World, a: Actor, id: Uint32)
    requires Good(w) && a in w.actors
    ensures Good(ExecTimeout(w, a, id).world) && QueuesGrow(w, ExecTimeout(w, a, id).world)
  {
    var (t, claimed) := ClaimTimeout(w.table, a, id);
    if claimed {
      var i := Find(w.table, id);
      var s := w.table[i].(replySent := true, timeoutQueued := true);
      var undone := w.table[i].(replySent := false, timeoutQueued := false);
      DeliverAppends(w.(table := t), a, TimeoutMsg(id));
      UpdateKeepsTable(w.table, i, s);
      UpdateKeepsTable(w.table, i, undone);
      FindUnique(t, i);
      var (w1, rc) := Post(w.(table := t), a, TimeoutMsg(id));
      if rc != 0 {
        assert RollbackTimeout(t, a, id) == w.table[i := undone];
        OneSlotStep(w, w1.(table := RollbackTimeout(t, a, id)), i, undone);
      } else {
        LastAnswers(w1, s, Copied(TimeoutMsg(id)));
        OneSlotStep(w, w1, i, s);
      }
    }
  }

  lemma CancelStaysGood(w: World, self: Actor, id: Uint32)
    requires Good(w)
    ensures Good(ExecCancel(w, self, id).world) && QueuesGrow(w, ExecCancel(w, self, id).world)
  {
    var i := Find(w.table, id);
    if ExecCancel(w, self, id).rc == 0 {
      UpdateKeepsTable(w.table, i, ZERO_SLOT);
      OneSlotStep(w, ExecCancel(w, self, id).world, i, ZERO_SLOT);
    }
  }

  /** Every call, with any arguments, keeps the system good and only appends to mailboxes. */
  lemma CallStaysGood(w: World, c: Call)
    requires Good(w) && CallOk(w.actors.Keys, c)
    ensures Good(Exec(w, c).world) && QueuesGrow(w, Exec(w, c).world)
  {
    match c
    case Ask(_, _, _, _, _, _, _) => AskStaysGood(w, c);
    case Reply(_, _, _) => ReplyStaysGood(w, c);
    case ReplyError(_, _) => ReplyErrorStaysGood(w, c);
    case Cancel(self, id) => CancelStaysGood(w, self, id);
    case TimeoutExpired(self, id) => TimeoutStaysGood(w, self, id);
    case _ =>
      SendGrows(w, c);
      SameTableStep(w, Exec(w, c).world);
  }

  lemma SendGrows(w: World, c: Call)
    requires WorldOk(w) && CallOk(w.actors.Keys, c) && (c.SendCommand? || c.SendTo? || c.Publish?)
    ensures QueuesGrow(w, Exec(w, c).world) && SameTables(w, Exec(w, c).world)
  {
    match c
    case SendCommand(d, payload) =>
      if Prepare(w, d).1 == 0 {
        DeliverAppends(w, Prepare(w, d).0, MakeMsg(d, payload));
      }
    case SendTo(a, direct, payload) =>
      if a != NULL && direct.Some? {
        DeliverAppends(w, a, DirectWire(direct.value, payload));
      }
    case Publish(d, payload) =>
      if ValidDescriptor(d, Event) {
        FanOutAppends(w, MakeMsg(d, payload), |w.subs|);
      }
  }

  // ------------------------------------------------------------------ dispatch

  /** Dispatch takes away one message; if it was some ask's answer, that ask's callback runs and its slot is free. */
  lemma DispatchStaysGood(w: World, a: Actor)
    requires Good(w) && Ready(w, a)
    ensures Good(Dispatch(w, a).0)
  {
    var q := w.actors[a].box.queue;
    var w' := Dispatch(w, a).0;
    var k := Find(w.table, q[0].header.askId);
    if k < |w.table| { UpdateKeepsTable(w.table, k, ZERO_SLOT); }
    forall i | 0 <= i < |w'.table| && w'.table[i].used && w'.table[i].replySent
      ensures HasAnswer(w', w'.table[i])
    {
      var s := w.table[i];
      assert w'.table[i] == s;
      var b := s.actor;
      var j :| 0 <= j < |w.actors[b].box.queue| && Completes(s, b, w.actors[b].box.queue[j].header);
      FindUnique(w.table, i);
      if b == a && j > 0 {
        assert w'.actors[a].box.queue[j - 1] == q[j];
      }
    }
  }

  // ------------------------------------------------------------------ whole runs

  datatype Step = DoCall(c: Call) | DoDispatch(a: Actor)

  ghost function Next(w: World, s: Step): World
    requires WorldOk(w)
  {
    match s
    case DoCall(c) => if CallOk(w.actors.Keys, c) then Exec(w, c).world else w
    case DoDispatch(a) => if Ready(w, a) then Dispatch(w, a).0 else w
  }

  ghost predicate RunsTo(w: World, steps: seq<Step>, w': World)
    decreases |steps|
  {
    if steps == [] then w' == w
    else WorldOk(w) && RunsTo(Next(w, steps[0]), steps[1..], w')
  }

  ghost predicate Idle(w: World) {
    forall a :: a in w.actors ==> w.actors[a].box.queue == []
  }

  /** Nothing answered or timed out is still waiting for its callback. */
  ghost predicate Drained(w: World) {
    forall i :: 0 <= i < |w.table| && w.table[i].used ==> !w.table[i].replySent && !w.table[i].timeoutQueued
  }

  lemma IdleMeansDrained(w: World)
    requires Good(w) && Idle(w)
    ensures Drained(w)
  {
    forall i | 0 <= i < |w.table| && w.table[i].used
      ensures !w.table[i].replySent
    {
      assert w.table[i].replySent ==> HasAnswer(w, w.table[i]);
    }
  }

  /**
   * Drain completeness: along every run of calls and dispatches, each answered or timed-out ask has a message
   * in its asker's mailbox that completes it; when the mailboxes are empty no such ask is left.
   */
  lemma {:induction false} DrainComplete(w: World, steps: seq<Step>, w': World)
    requires Good(w) && RunsTo(w, steps, w')
    ensures Good(w') && (Idle(w') ==> Drained(w'))
    decreases |steps|
  {
    if steps != [] {
      match steps[0] {
        case DoCall(c) => if CallOk(w.actors.Keys, c) { CallStaysGood(w, c); }
        case DoDispatch(a) => if Ready(w, a) { DispatchStaysGood(w, a); }
      }
      DrainComplete(Next(w, steps[0]), steps[1..], w');
    } else if Idle(w') {
      IdleMeansDrained(w');
    }
  }

  /** Start-up is a good world. */
  lemma FreshWorldIsGood(w: World)
    requires forall i :: 0 <= i < |w.table| ==> w.table[i] == ZERO_SLOT
    requires 0 < |w.table| <= MAX_SLOTS && NULL !in w.actors
    requires RowsKnown(w.routes, w.actors) && RowsKnown(w.subs, w.actors)
    ensures Good(w)
  {}

  /** A stop or a restart empties one mailbox and does not look at the ask table. */
  function Purged(w: World, a: Actor): World
    requires a in w.actors
  {
    w.(actors := w.actors[a := w.actors[a].(box := w.actors[a].box.(queue := []))])
  }

  /** Purging strands answers, exactly when the purged actor has an ask that was answered or timed out. */
  lemma PurgeStrandsItsOwnAnswers(w: World, a: Actor)
    requires Good(w) && a in w.actors
    ensures AllAnswered(Purged(w, a))
       <==> forall i :: 0 <= i < |w.table| && w.table[i].used && w.table[i].actor == a ==> !w.table[i].replySent
  {
    var w' := Purged(w, a);
    forall i | 0 <= i < |w.table| && w.table[i].used && w.table[i].replySent
      ensures HasAnswer(w', w.table[i]) <==> w.table[i].actor != a
    {
      assert HasAnswer(w, w.table[i]);
      if w.table[i].actor != a {
        assert w'.actors[w.table[i].actor] == w.actors[w.table[i].actor];
      }
    }
  }

  // ------------------------------------------------------------------ ask, reply, dispatch

  /**
   * Round trip: the reply to a pending ask is queued in the asker's mailbox with the replier's bytes, and
   * dispatching it there runs the ask's callback and frees exactly its slot.
   */
  lemma ReplyRoundTrip(w: World, c: Call, i: nat)
    requires Good(w) && CallOk(w.actors.Keys, c) && c.Reply? && ExecReply(w, c).rc == 0
    requires i < |w.table| && w.table[i].used && w.table[i].askId == c.requestMsg.value.askId
    ensures var w' := ExecReply(w, c).world;
            var s := w.table[i];
            var q := w'.actors[s.actor].box.queue;
            && c.desc.name.Some? && s.actor in w'.actors && q != []
            && q[..|q| - 1] == w.actors[s.actor].box.queue
            && q[|q| - 1] == Message(Header(s.replyId, Cmd, c.desc.size, s.askId, 0, 0), Bytes(c.payload, c.desc.size))
            && ClaimDispatch(w'.table, s.actor, q[|q| - 1].header) == (w.table[i := ZERO_SLOT], s.callback)
  {
    FindUnique(w.table, i);
    var r := c.requestMsg.value;
    var fits := a => a in w.actors && c.desc.size <= w.actors[a].box.maxPayload;
    var claim := ClaimReply(w.table, r.askId, r.replyId, EnsureId(c.desc).id, fits);
    var m := MakeMsg(c.desc, c.payload);
    var wire := m.(header := m.header.(askId := r.askId));
    DeliverAppends(w.(table := claim.table), claim.target, wire);
    CopiedBytes(wire);
    UpdateKeepsTable(w.table, i, w.table[i].(replySent := true));
    FindUnique(claim.table, i);
    assert claim.table[i := ZERO_SLOT] == w.table[i := ZERO_SLOT];
  }

  // ------------------------------------------------------------------ publish

  /** No actor subscribes twice to the id being published. */
  ghost predicate SubscribedOnce(subs: seq<Route>, id: Uint32) {
    forall i, j :: 0 <= i < j < |subs| && subs[i].msgId == id && subs[j].msgId == id ==> subs[i].actor != subs[j].actor
  }

  /** Among the first `n` rows. */
  ghost predicate SubscribedBefore(subs: seq<Route>, id: Uint32, a: Actor, n: nat)
    requires n <= |subs|
  {
    exists k :: 0 <= k < n && subs[k].msgId == id && subs[k].actor == a
  }

  lemma OfferTouchesOne(w: World, w': World, a: Actor, m: Wire)
    requires a in w.actors && w'.actors.Keys == w.actors.Keys && w'.actors[a] == w.actors[a] && m.Readable()
    ensures Offer(w', a, m).1 == Offer(w, a, m).1
    ensures Offer(w', a, m).0.actors[a] == Offer(w, a, m).0.actors[a]
    ensures forall b :: b in w.actors && b != a ==> Offer(w', a, m).0.actors[b] == w'.actors[b]
    ensures Offer(w', a, m).0.actors.Keys == w.actors.Keys
  {}

  /**
   * Fan-out: each subscriber is offered the message once, as if alone; nobody else is touched; earlier failures
   * change nothing for later subscribers; and the result is the first nonzero outcome in subscription order.
   */
  lemma {:induction false} FanOutOffersEachOnce(w: World, m: Wire, n: nat)
    requires m.Readable() && n <= |w.subs| && RowsKnown(w.subs, w.actors) && SubscribedOnce(w.subs, m.header.id)
    ensures var (w', rc) := FanOut(w, m, n);
            && (forall a :: a in w.actors ==>
                  w'.actors[a] == if SubscribedBefore(w.subs, m.header.id, a, n) then Offer(w, a, m).0.actors[a] else w.actors[a])
            && (rc == 0 ==> forall k :: 0 <= k < n && w.subs[k].msgId == m.header.id ==> Offer(w, w.subs[k].actor, m).1 == 0)
            && (rc != 0 ==> exists k :: (0 <= k < n && w.subs[k].msgId == m.header.id && Offer(w, w.subs[k].actor, m).1 == rc
                  && forall j :: 0 <= j < k && w.subs[j].msgId == m.header.id ==> Offer(w, w.subs[j].actor, m).1 == 0))
  {
    if n > 0 {
      FanOutOffersEachOnce(w, m, n - 1);
      var (w1, first) := FanOut(w, m, n - 1);
      var row := w.subs[n - 1];
      if row.msgId == m.header.id {
        assert !SubscribedBefore(w.subs, m.header.id, row.actor, n - 1);
        OfferTouchesOne(w, w1, row.actor, m);
        assert SubscribedBefore(w.subs, m.header.id, row.actor, n);
      }
      forall a | a in w.actors && a != row.actor
        ensures SubscribedBefore(w.subs, m.header.id, a, n) == SubscribedBefore(w.subs, m.header.id, a, n - 1)
      {}
    }
  }

  /** Whether the mailbox takes a message of this size now. */
  predicate HasRoom(b: Box, size: nat) {
    b.started && size <= b.maxPayload && |b.queue| < b.capacity
  }

  /** A subscriber whose mailbox has room and allows the size gets exactly one more message, the published one. */
  lemma OfferDelivers(w: World, a: Actor, m: Wire)
    requires a in w.actors && m.Readable()
    ensures var b, (w', rc) := w.actors[a].box, Offer(w, a, m);
            && (rc == 0 <==> HasRoom(b, m.header.size))
            && w'.actors[a].box.queue == if rc == 0 then b.queue + [Copied(m)] else b.queue
  {}

  /** An offer to this subscriber is dropped: its mailbox takes such a message but is full, and its policy is to drop. */
  predicate Drops(s: ActorState, size: nat) {
    s.policy == Drop && s.box.started && size <= s.box.maxPayload && |s.box.queue| >= s.box.capacity
  }

  lemma OfferRc(w: World, a: Actor, m: Wire)
    requires a in w.actors && m.Readable()
    ensures Offer(w, a, m).1 > 0 <==> Drops(w.actors[a], m.header.size)
    ensures Offer(w, a, m).1 > 0 ==> Offer(w, a, m).1 == DELIVERY_DROPPED
  {}

  /** The first subscription row of the message that is not served is row `k`, and there the message is dropped. */
  predicate FirstUnservedDrops(w: World, m: Wire, k: nat)
    requires k < |w.subs| && RowsKnown(w.subs, w.actors)
  {
    && w.subs[k].msgId == m.header.id && Drops(w.actors[w.subs[k].actor], m.header.size)
    && forall j :: 0 <= j < k && w.subs[j].msgId == m.header.id ==> HasRoom(w.actors[w.subs[j].actor].box, m.header.size)
  }

  /**
   * When a publish does not report what its documentation says, a failure as a negative number: it returns a positive
   * value, IPC_DELIVERY_DROPPED, if and only if the first subscriber that is not served drops the message.
   */
  lemma PublishReportsADropIff(w: World, m: Wire)
    requires m.Readable() && RowsKnown(w.subs, w.actors) && SubscribedOnce(w.subs, m.header.id)
    ensures FanOut(w, m, |w.subs|).1 > 0 <==> exists k :: 0 <= k < |w.subs| && FirstUnservedDrops(w, m, k)
    ensures FanOut(w, m, |w.subs|).1 > 0 ==> FanOut(w, m, |w.subs|).1 == DELIVERY_DROPPED
  {
    var rc := FanOut(w, m, |w.subs|).1;
    FanOutOffersEachOnce(w, m, |w.subs|);
    forall k | 0 <= k < |w.subs|
      ensures var a := w.subs[k].actor;
              && (Offer(w, a, m).1 > 0 <==> Drops(w.actors[a], m.header.size))
              && (Offer(w, a, m).1 > 0 ==> Offer(w, a, m).1 == DELIVERY_DROPPED)
              && (Offer(w, a, m).1 == 0 <==> HasRoom(w.actors[a].box, m.header.size))
    {
      OfferRc(w, w.subs[k].actor, m);
      OfferDelivers(w, w.subs[k].actor, m);
    }
    if rc != 0 {
      var k :| 0 <= k < |w.subs| && w.subs[k].msgId == m.header.id && Offer(w, w.subs[k].actor, m).1 == rc
        && forall j :: 0 <= j < k && w.subs[j].msgId == m.header.id ==> Offer(w, w.subs[j].actor, m).1 == 0;
      if rc > 0 { assert FirstUnservedDrops(w, m, k); }
    }
  }

  /** One subscriber with a full one-message mailbox whose policy is to drop. */
  const FULL_AND_DROPPING := ActorState(Box(true, 1, 0, [Message(Header(4, Event, 0, 0, 0, 0), [])]), Drop, 0)
  const DROPPING_WORLD := World([ZERO_SLOT], 1, map[1 := FULL_AND_DROPPING], [], [Route(4, [65], 1)], true)

  /** A world and a publish that reports a positive value and no failure. */
  lemma PublishCanReportADrop()
    ensures Good(DROPPING_WORLD)
    ensures ExecPublish(DROPPING_WORLD, Desc(4, Event, 0, Some([65])), None).rc == DELIVERY_DROPPED
  {
    var w, d := DROPPING_WORLD, Desc(4, Event, 0, Some([65]));
    FreshWorldIsGood(w);
    assert FirstUnservedDrops(w, MakeMsg(d, None), 0);
    PublishReportsADropIff(w, MakeMsg(d, None));
  }
}
