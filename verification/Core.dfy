/**
 * The public API of src/ipc.c over the ask table, the routes and the mailboxes, with each call as one step.
 * Functions give every call's effect on the whole system; class `IpcCore` (IpcCore.dfy) performs the calls in place.
 */
module Core {
  import opened Types
  import opened Mailbox
  import opened AskTable
  import opened Registry

  /** The parts of `struct ipc_actor` a send touches; `box.maxPayload` is cfg.max_payload_size. */
  datatype ActorState = ActorState(box: Box, policy: Overflow, dropped: Uint32)

  /** `running` is lifecycle_state == IPC_LIFECYCLE_RUNNING. */
  datatype World = World(table: seq<Slot>, next: Uint32, actors: map<Actor, ActorState>,
                         routes: seq<Route>, subs: seq<Route>, running: bool)

  /** A call and its arguments. A None request, descriptor or descriptor name stands for a NULL pointer. */
  datatype Call =
    | Ask(self: Actor, request: Desc, payload: Option<seq<Byte>>, reply: Desc, callback: Callback, timed: bool, scheduleRc: int)
    | Reply(requestMsg: Option<Header>, desc: Desc, payload: Option<seq<Byte>>)
    | ReplyError(requestMsg: Option<Header>, result: int)
    | Cancel(self: Actor, askId: Uint32)
    | TimeoutExpired(self: Actor, askId: Uint32)
    | SendCommand(desc: Desc, payload: Option<seq<Byte>>)
    | SendTo(self: Actor, direct: Option<Desc>, payload: Option<seq<Byte>>)
    | Publish(desc: Desc, payload: Option<seq<Byte>>)

  predicate Covers(payload: Option<seq<Byte>>, d: Desc) {
    payload.Some? ==> |payload.value| == d.size
  }

  /** What the API demands of its callers: actors are real or NULL, and payload pointers cover the descriptor's size. */
  predicate CallOk(actors: set<Actor>, c: Call) {
    match c
    case Ask(self, request, payload, _, _, _, _) => (self == NULL || self in actors) && Covers(payload, request)
    case Reply(_, desc, payload) => Covers(payload, desc)
    case ReplyError(_, _) => true
    case Cancel(_, _) => true
    case TimeoutExpired(self, _) => self in actors
    case SendCommand(desc, payload) => Covers(payload, desc)
    case SendTo(self, direct, payload) => (self == NULL || self in actors) && (direct.Some? ==> Covers(payload, direct.value))
    case Publish(desc, payload) => Covers(payload, desc)
  }

  ghost predicate WorldOk(w: World) {
    && TableOk(w.table) && 0 < |w.table| <= MAX_SLOTS && NULL !in w.actors
    && (forall i :: 0 <= i < |w.table| && w.table[i].used ==> w.table[i].actor in w.actors)
    && RowsKnown(w.routes, w.actors) && RowsKnown(w.subs, w.actors)
  }

  ghost predicate RowsKnown(rows: seq<Route>, actors: map<Actor, ActorState>) {
    forall i :: 0 <= i < |rows| ==> rows[i].actor in actors
  }

  // ------------------------------------------------------------------ sending

  /** ipc_port_send */
  function Post(w: World, a: Actor, m: Wire): (World, int)
    requires a in w.actors && m.Readable()
  {
    var (box, rc) := Send(w.actors[a].box, m);
    (w.(actors := w.actors[a := w.actors[a].(box := box)]), rc)
  }

  /** apply_mailbox_overflow_policy */
  function ApplyPolicy(s: ActorState, rc: int): (ActorState, int) {
    if (rc != -ENOMEM && rc != -EAGAIN) || s.policy != Drop then (s, rc)
    else (s.(dropped := Inc32(s.dropped)), DELIVERY_DROPPED)
  }

  /** ipc_port_send followed by the overflow policy. */
  function Deliver(w: World, a: Actor, m: Wire): (World, int)
    requires a in w.actors && m.Readable()
  {
    var (w1, rc) := Post(w, a, m);
    var (s, rc') := ApplyPolicy(w1.actors[a], rc);
    (w1.(actors := w1.actors[a := s]), rc')
  }

  predicate ValidDescriptor(d: Desc, kind: Kind) {
    d.kind == kind && d.name.Some?
  }

  /** make_msg */
  function MakeMsg(d: Desc, payload: Option<seq<Byte>>): (m: Wire)
    requires d.name.Some? && Covers(payload, d)
    ensures m.Readable() && m.header.id == EnsureId(d).id && m.header.askId == 0
  {
    Wire(Header(EnsureId(d).id, d.kind, d.size, 0, 0, 0), payload)
  }

  /** prepare_registered_cmd: the target, or NULL with the reason. */
  function Prepare(w: World, d: Desc): (r: (Actor, int))
    requires RowsKnown(w.routes, w.actors)
    ensures r.1 == 0 ==> r.0 in w.actors && d.name.Some?
  {
    if !ValidDescriptor(d, Cmd) then (NULL, -EINVAL)
    else
      var target := FindRegistered(w.routes, EnsureId(d).id);
      if target == NULL then (NULL, -ENOENT)
      else if d.size > w.actors[target].box.maxPayload then (NULL, -EMSGSIZE)
      else (target, 0)
  }

  // ------------------------------------------------------------------ the calls

  /** Return code and, for an ask, the id handed out (0 when it fails). */
  datatype Outcome = Outcome(world: World, rc: int, askId: Uint32)

  /** ipc_ask_with_id_raw */
  function ExecAsk(w: World, c: Call): Outcome
    requires WorldOk(w) && CallOk(w.actors.Keys, c) && c.Ask?
  {
    if c.self == NULL || c.callback == NULL || !ValidDescriptor(c.request, Cmd) || !ValidDescriptor(c.reply, Cmd)
    then Outcome(w, -EINVAL, 0)
    else
      var (target, rc) := Prepare(w, c.request);
      if rc != 0 then Outcome(w, rc, 0)
      else if c.reply.size > w.actors[c.self].box.maxPayload then Outcome(w, -EMSGSIZE, 0)
      else
        var replyId := EnsureId(c.reply).id;
        var (t, next, id) := Reserve(w.table, w.next, c.self, replyId, c.callback);
        var w1 := w.(table := t, next := next);
        if id.None? then Outcome(w1, -ENOMEM, 0)
        else AskReserved(w1, c, target, id.value)
  }

  /** The request of an ask that got the id `id`. */
  function RequestWire(c: Call, id: Uint32): (m: Wire)
    requires c.Ask? && c.request.name.Some? && c.reply.name.Some? && Covers(c.payload, c.request)
    ensures m.Readable()
  {
    Wire(Header(EnsureId(c.request).id, c.request.kind, c.request.size, id, EnsureId(c.reply).id, 0), c.payload)
  }

  /** The unlocked rest of an ask: arm the timer, send the request, and on failure discard the ask. */
  function AskReserved(w: World, c: Call, target: Actor, id: Uint32): Outcome
    requires c.Ask? && c.request.name.Some? && c.reply.name.Some? && Covers(c.payload, c.request) && target in w.actors
  {
    if c.timed && c.scheduleRc != 0 then Outcome(w.(table := Discard(w.table, id)), c.scheduleRc, 0)
    else
      var (w1, rc) := Deliver(w, target, RequestWire(c, id));
      if rc != 0 then Outcome(w1.(table := Discard(w1.table, id)), rc, 0) else Outcome(w1, 0, id)
  }

  /** ipc_reply_raw */
  function ExecReply(w: World, c: Call): Outcome
    requires WorldOk(w) && CallOk(w.actors.Keys, c) && c.Reply?
  {
    if c.requestMsg.None? || c.requestMsg.value.askId == 0 || !ValidDescriptor(c.desc, Cmd) then Outcome(w, -EINVAL, 0)
    else
      var r := c.requestMsg.value;
      var claim := ClaimReply(w.table, r.askId, r.replyId, EnsureId(c.desc).id,
                              a => a in w.actors && c.desc.size <= w.actors[a].box.maxPayload);
      var w1 := w.(table := claim.table);
      if claim.rc != 0 then Outcome(w1, claim.rc, 0)
      else
        var m := MakeMsg(c.desc, c.payload);
        var (w2, rc) := Deliver(w1, claim.target, m.(header := m.header.(askId := r.askId)));
        Outcome(if rc != 0 then w2.(table := Discard(w2.table, r.askId)) else w2, rc, 0)
  }

  /** ipc_reply_error_raw: unlike a reply it bypasses the overflow policy. */
  function ExecReplyError(w: World, c: Call): Outcome
    requires WorldOk(w) && c.ReplyError?
  {
    if c.requestMsg.None? || c.requestMsg.value.askId == 0 || c.requestMsg.value.replyId == 0 || c.result == 0
    then Outcome(w, -EINVAL, 0)
    else
      var r := c.requestMsg.value;
      var claim := ClaimError(w.table, r.askId, r.replyId);
      var w1 := w.(table := claim.table);
      if claim.rc != 0 then Outcome(w1, claim.rc, 0)
      else
        var (w2, rc) := Post(w1, claim.target, Wire(Header(r.replyId, Cmd, 0, r.askId, 0, c.result), None));
        Outcome(if rc != 0 then w2.(table := Discard(w2.table, r.askId)) else w2, rc, 0)
  }

  function TimeoutMsg(askId: Uint32): (m: Wire)
    ensures m.Readable()
  {
    Wire(Header(TIMEOUT_MSG_ID, Cmd, 0, askId, 0, -ETIMEDOUT), None)
  }

  /** ipc_ask_timeout_expired */
  function ExecTimeout(w: World, a: Actor, id: Uint32): Outcome
    requires WorldOk(w) && a in w.actors
  {
    var (t, claimed) := ClaimTimeout(w.table, a, id);
    if !claimed then Outcome(w, 0, 0)
    else
      var (w1, rc) := Post(w.(table := t), a, TimeoutMsg(id));
      Outcome(if rc != 0 then w1.(table := RollbackTimeout(t, a, id)) else w1, 0, 0)
  }

  /** ipc_ask_cancel */
  function ExecCancel(w: World, self: Actor, id: Uint32): Outcome {
    if self == NULL || id == 0 then Outcome(w, -EINVAL, 0)
    else if !w.running then Outcome(w, -EPERM, 0)
    else
      var (t, rc) := CancelAsk(w.table, self, id);
      Outcome(w.(table := t), rc, 0)
  }

  /** ipc_send_raw */
  function ExecSend(w: World, d: Desc, payload: Option<seq<Byte>>): Outcome
    requires WorldOk(w) && Covers(payload, d)
  {
    var (target, rc) := Prepare(w, d);
    if rc != 0 then Outcome(w, rc, 0)
    else
      var (w1, rc1) := Deliver(w, target, MakeMsg(d, payload));
      Outcome(w1, rc1, 0)
  }

  function DirectWire(d: Desc, payload: Option<seq<Byte>>): (m: Wire)
    requires Covers(payload, d)
    ensures m.Readable()
  {
    Wire(Header(d.id, d.kind, d.size, 0, 0, 0), payload)
  }

  /** ipc_send_to_raw: no lookup and no lazy id; the name is not needed. */
  function ExecSendTo(w: World, a: Actor, direct: Option<Desc>, payload: Option<seq<Byte>>): Outcome
    requires (direct.Some? ==> Covers(payload, direct.value)) && (a == NULL || a in w.actors)
  {
    if a == NULL || direct.None? then Outcome(w, -EINVAL, 0)
    else if !w.running then Outcome(w, -EPERM, 0)
    else if direct.value.id == 0 then Outcome(w, -EINVAL, 0)
    else if direct.value.size > w.actors[a].box.maxPayload then Outcome(w, -EMSGSIZE, 0)
    else
      var (w1, rc) := Deliver(w, a, DirectWire(direct.value, payload));
      Outcome(w1, rc, 0)
  }

  /** The outcome of one subscriber of a fan-out. */
  function Offer(w: World, a: Actor, m: Wire): (World, int)
    requires a in w.actors && m.Readable()
  {
    if m.header.size > w.actors[a].box.maxPayload then (w, -EMSGSIZE) else Deliver(w, a, m)
  }

  /** publish_prepared_msg up to row `n`: the first nonzero outcome is kept. */
  function FanOut(w: World, m: Wire, n: nat): (r: (World, int))
    requires m.Readable() && n <= |w.subs| && RowsKnown(w.subs, w.actors)
    ensures r.0.actors.Keys == w.actors.Keys && r.0.subs == w.subs
  {
    if n == 0 then (w, 0)
    else
      var (w1, first) := FanOut(w, m, n - 1);
      if w.subs[n - 1].msgId != m.header.id then (w1, first)
      else
        var (w2, rc) := Offer(w1, w.subs[n - 1].actor, m);
        (w2, if first == 0 then rc else first)
  }

  /** ipc_publish_raw */
  function ExecPublish(w: World, d: Desc, payload: Option<seq<Byte>>): Outcome
    requires WorldOk(w) && Covers(payload, d)
  {
    if !ValidDescriptor(d, Event) then Outcome(w, -EINVAL, 0)
    else
      var (w1, rc) := FanOut(w, MakeMsg(d, payload), |w.subs|);
      Outcome(w1, rc, 0)
  }

  function Exec(w: World, c: Call): Outcome
    requires WorldOk(w) && CallOk(w.actors.Keys, c)
  {
    match c
    case Ask(_, _, _, _, _, _, _) => ExecAsk(w, c)
    case Reply(_, _, _) => ExecReply(w, c)
    case ReplyError(_, _) => ExecReplyError(w, c)
    case Cancel(self, id) => ExecCancel(w, self, id)
    case TimeoutExpired(self, id) => ExecTimeout(w, self, id)
    case SendCommand(d, payload) => ExecSend(w, d, payload)
    case SendTo(a, direct, payload) => ExecSendTo(w, a, direct, payload)
    case Publish(d, payload) => ExecPublish(w, d, payload)
  }

  predicate Ready(w: World, a: Actor) {
    a in w.actors && w.actors[a].box.started && w.actors[a].box.queue != []
  }

  /** Takes the oldest message of `a` and runs the ask section of ipc_dispatch_actor_handlers on it. */
  function Dispatch(w: World, a: Actor): (World, Message, Callback)
    requires Ready(w, a)
  {
    var s := w.actors[a];
    var m := s.box.queue[0];
    var (t, callback) := ClaimDispatch(w.table, a, m.header);
    (w.(table := t, actors := w.actors[a := s.(box := s.box.(queue := s.box.queue[1..]))]), m, callback)
  }
}
