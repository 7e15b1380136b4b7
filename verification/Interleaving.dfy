/**
 * The ask protocol of src/ipc.c split at every unlock: any number of operations may be between their lock section
 * and their send, or between a failed send and its clean-up, in any interleaving. Each ask is numbered when it
 * is reserved, so that two asks are told apart even when the 32-bit id is used again.
 */
module Interleaving {
  import opened Types
  import opened AskTable

  /** What the `n`-th ask was: who asked whom, under which id, expecting which reply. */
  datatype AskInfo = AskInfo(self: Actor, target: Actor, askId: Uint32, requestId: Uint32, replyId: Uint32, callback: Callback)

  /** Why a message was sent. */
  datatype Origin = Plain | Request | Answer | Failure | Expiry

  /** A message with the number of the ask it was sent for. */
  datatype Mail = Mail(msg: Message, ask: nat, origin: Origin)

  /** Which section took an ask out of the table. */
  datatype Cause = ByCallback | ByCancel | AskFailed | ReplyFailed | ReplyTooBig

  /** Ask `ask` left the table, by actor `actor` (NULL where none is involved), in a section that was meant for ask `on`. */
  datatype Retirement = Retirement(ask: nat, cause: Cause, actor: Actor, on: nat)

  /** A reply or error reply, meant for ask `on`, that got past the lock section and answered ask `ask`. */
  datatype Acceptance = Acceptance(ask: nat, on: nat, header: Header, payload: seq<Byte>)

  /** The ask table and its history: `holder[i]` is the number of the ask in slot `i`. */
  datatype Ledger = Ledger(table: seq<Slot>, holder: seq<nat>, next: Uint32,
                           asks: seq<AskInfo>, retired: seq<Retirement>, accepted: seq<Acceptance>)

  /** An operation that has released the lock and is not finished. */
  datatype Op =
    | Arming(mail: Mail)                                    // reserved; timer not yet scheduled
    | Posting(mail: Mail)                                   // request not yet sent
    | AskUndo(ask: nat, askId: Uint32)                      // ask failed; slot not yet discarded
    | Answering(mail: Mail, self: Actor)                    // answer claimed; not yet sent
    | AnswerUndo(ask: nat, askId: Uint32)                   // answer not sent; slot not yet discarded
    | Expiring(mail: Mail, self: Actor)                     // timeout claimed; not yet posted
    | ExpiryUndo(ask: nat, askId: Uint32, self: Actor)      // timeout not posted; flags not yet rolled back
    | Dequeued(mail: Mail, self: Actor)                     // message taken; dispatcher not yet in its lock section
    | Calling(ask: nat, callback: Callback, self: Actor, mail: Mail)  // slot freed; callback not yet run
    | Handling(mail: Mail, self: Actor)                     // the message is with its handler, or kept by it

  /** A callback that ran. */
  datatype Run = Run(ask: nat, callback: Callback, self: Actor, mail: Mail)

  /**
   * `timers` are the armed one-shot timers and `handles` the ids that askers were given and still keep, both by ask;
   * operations are keyed by whoever performs them.
   */
  datatype Sys = Sys(led: Ledger, boxes: map<Actor, seq<Mail>>, ops: map<nat, Op>, timers: set<nat>, handles: set<nat>,
                     runs: seq<Run>)

  /**
   * Replies, error replies and cancels act on whatever id they are given; `on` is the ask their caller means. It has
   * no effect, and is recorded only.
   */

  datatype Action =
    | BeginAsk(t: nat, self: Actor, target: Actor, request: Header, payload: seq<Byte>, replyId: Uint32, callback: Callback, timed: bool)
    | Arm(t: nat, ok: bool)
    | PostRequest(t: nat, ok: bool)
    | UndoAsk(t: nat)
    | BeginReply(t: nat, on: nat, askId: Uint32, requestReplyId: Uint32, descId: Uint32, payload: seq<Byte>, fits: bool)
    | BeginError(t: nat, on: nat, askId: Uint32, requestReplyId: Uint32, result: int)
    | SendAnswer(t: nat, ok: bool)
    | UndoAnswer(t: nat)
    | BeginExpiry(t: nat, self: Actor, askId: Uint32, timer: Option<nat>)
    | PostExpiry(t: nat, ok: bool)
    | UndoExpiry(t: nat)
    | CancelPending(self: Actor, askId: Uint32, on: nat)
    | SendPlain(self: Actor, msg: Message)
    | Dequeue(t: nat, self: Actor)
    | ClaimMessage(t: nat)
    | RunCallback(t: nat)
    | HandlerReturns(t: nat)
    | Forget(ask: nat)
    | Purge(self: Actor)

  // ------------------------------------------------------------------ ledger updates

  /** Slot `i` leaves the table. */
  function Retire(l: Ledger, i: nat, cause: Cause, actor: Actor, on: nat): Ledger
    requires i < |l.table| == |l.holder|
  {
    l.(table := l.table[i := ZERO_SLOT], retired := l.retired + [Retirement(l.holder[i], cause, actor, on)])
  }

  /** A clean-up section: whatever slot carries the id leaves the table. */
  function RetireById(l: Ledger, id: Uint32, cause: Cause, on: nat): Ledger
    requires |l.table| == |l.holder|
  {
    var i := Find(l.table, id);
    if i == |l.table| then l else Retire(l, i, cause, NULL, on)
  }

  /** A new ask takes the first free slot. */
  function Occupy(l: Ledger, info: AskInfo, next: Uint32): Ledger
    requires FreeFrom(l.table, 0) < |l.table| == |l.holder|
  {
    var i := FreeFrom(l.table, 0);
    l.(table := l.table[i := Slot(true, false, false, info.askId, info.replyId, info.self, info.callback)],
       holder := l.holder[i := |l.asks|], asks := l.asks + [info], next := next)
  }

  function Flag(l: Ledger, i: nat, replySent: bool, timeoutQueued: bool): Ledger
    requires i < |l.table|
  {
    l.(table := l.table[i := l.table[i].(replySent := replySent, timeoutQueued := timeoutQueued)])
  }

  // ------------------------------------------------------------------ mailboxes and operations

  function BoxOf(s: Sys, a: Actor): seq<Mail> {
    if a in s.boxes then s.boxes[a] else []
  }

  function Append(s: Sys, a: Actor, m: Mail): Sys {
    s.(boxes := s.boxes[a := BoxOf(s, a) + [m]])
  }

  function SetOp(s: Sys, t: nat, op: Op): Sys {
    s.(ops := s.ops[t := op])
  }

  function EndOp(s: Sys, t: nat): Sys {
    s.(ops := s.ops - {t})
  }

  /** Every slot has a holder entry. */
  predicate Sized(s: Sys) {
    |s.led.table| == |s.led.holder|
  }

  // ------------------------------------------------------------------ steps

  function DoBeginAsk(s: Sys, a: Action): (s': Sys)
    requires a.BeginAsk? && Sized(s)
    ensures Sized(s')
  {
    var l := s.led;
    var (_, next, id) := Reserve(l.table, l.next, a.self, a.replyId, a.callback);
    if a.self == NULL || a.callback == NULL || a.t in s.ops then s
    else if id.None? then s.(led := l.(next := next))
    else
      var info := AskInfo(a.self, a.target, id.value, a.request.id, a.replyId, a.callback);
      var mail := Mail(Message(Header(a.request.id, Cmd, a.request.size, id.value, a.replyId, 0), a.payload), |l.asks|, Request);
      SetOp(s.(led := Occupy(l, info, next)), a.t, if a.timed then Arming(mail) else Posting(mail))
  }

  function DoBeginReply(s: Sys, a: Action): (s': Sys)
    requires a.BeginReply? && Sized(s)
    ensures Sized(s')
  {
    var l := s.led;
    var i := Find(l.table, a.askId);
    var claim := ClaimReply(l.table, a.askId, a.requestReplyId, a.descId, _ => a.fits);
    if a.askId == 0 || a.t in s.ops || i == |l.table| then s
    else if claim.rc == -EMSGSIZE then s.(led := Retire(l, i, ReplyTooBig, NULL, a.on))
    else if claim.rc != 0 then s
    else Accept(s, a.t, a.on, i, Message(Header(a.descId, Cmd, |a.payload|, a.askId, 0, 0), a.payload), Answer)
  }

  function DoBeginError(s: Sys, a: Action): (s': Sys)
    requires a.BeginError? && Sized(s)
    ensures Sized(s')
  {
    var l := s.led;
    var i := Find(l.table, a.askId);
    if a.askId == 0 || a.requestReplyId == 0 || a.result == 0 || a.t in s.ops || i == |l.table|
      || ClaimError(l.table, a.askId, a.requestReplyId).rc != 0 then s
    else Accept(s, a.t, a.on, i, Message(Header(a.requestReplyId, Cmd, 0, a.askId, 0, a.result), []), Failure)
  }

  /** A reply section that succeeds: the ask counts as answered and the answer is on its way. */
  function Accept(s: Sys, t: nat, on: nat, i: nat, m: Message, origin: Origin): Sys
    requires i < |s.led.table| == |s.led.holder|
  {
    var l := s.led;
    var k := l.holder[i];
    var l' := Flag(l, i, true, l.table[i].timeoutQueued);
    SetOp(s.(led := l'.(accepted := l'.accepted + [Acceptance(k, on, m.header, m.payload)])),
          t, Answering(Mail(m, k, origin), l.table[i].actor))
  }

  function DoBeginExpiry(s: Sys, a: Action): (s': Sys)
    requires a.BeginExpiry? && Sized(s)
    ensures Sized(s')
  {
    var l := s.led;
    var i := Find(l.table, a.askId);
    if a.t in s.ops || (a.timer.Some? && !(a.timer.value in s.timers && a.timer.value < |l.asks|
                          && l.asks[a.timer.value].self == a.self && l.asks[a.timer.value].askId == a.askId)) then s
    else
      var s1 := if a.timer.Some? then s.(timers := s.timers - {a.timer.value}) else s;
      if i == |l.table| || !ClaimTimeout(l.table, a.self, a.askId).1 then s1
      else SetOp(s1.(led := Flag(l, i, true, true)), a.t,
                 Expiring(Mail(Message(Header(TIMEOUT_MSG_ID, Cmd, 0, a.askId, 0, -ETIMEDOUT), []), l.holder[i], Expiry), a.self))
  }

  function DoUndoExpiry(s: Sys, t: nat): Sys
    requires t in s.ops && s.ops[t].ExpiryUndo?
  {
    var i := Find(s.led.table, s.ops[t].askId);
    var s1 := EndOp(s, t);
    if i == |s.led.table| || s.led.table[i].actor != s.ops[t].self then s1
    else s1.(led := Flag(s.led, i, false, false))
  }

  function DoCancel(s: Sys, self: Actor, id: Uint32, on: nat): (s': Sys)
    requires Sized(s)
    ensures Sized(s')
  {
    var i := Find(s.led.table, id);
    if self == NULL || id == 0 || i == |s.led.table| || s.led.table[i].actor != self then s
    else s.(led := Retire(s.led, i, ByCancel, self, on))
  }

  function DoClaimMessage(s: Sys, t: nat): (s': Sys)
    requires t in s.ops && s.ops[t].Dequeued? && Sized(s)
    ensures Sized(s')
  {
    var l, op := s.led, s.ops[t];
    var h := op.mail.msg.header;
    var i := Find(l.table, h.askId);
    if h.askId == 0 || i == |l.table| || !Completes(l.table[i], op.self, h) then SetOp(s, t, Handling(op.mail, op.self))
    else SetOp(s.(led := Retire(l, i, ByCallback, op.self, op.mail.ask)), t,
               Calling(l.holder[i], l.table[i].callback, op.self, op.mail))
  }

  /** One step; an action that does not apply leaves the system as it is. */
  function Next(s: Sys, a: Action): (s': Sys)
    requires Sized(s)
    ensures Sized(s')
  {
    match a
    case BeginAsk(_, _, _, _, _, _, _, _) => DoBeginAsk(s, a)
    case BeginReply(_, _, _, _, _, _, _) => DoBeginReply(s, a)
    case BeginError(_, _, _, _, _) => DoBeginError(s, a)
    case BeginExpiry(_, _, _, _) => DoBeginExpiry(s, a)
    case CancelPending(self, id, on) => DoCancel(s, self, id, on)
    case SendPlain(b, m) => if m.header.askId == 0 then Append(s, b, Mail(m, 0, Plain)) else s
    case Forget(k) => s.(handles := s.handles - {k})
    case Purge(b) => s.(boxes := s.boxes[b := []])
    case Dequeue(t, b) =>
      if t in s.ops || BoxOf(s, b) == [] then s
      else SetOp(s.(boxes := s.boxes[b := BoxOf(s, b)[1..]]), t, Dequeued(BoxOf(s, b)[0], b))
    case _ => if a.t in s.ops then Continue(s, a) else s
  }

  /** The steps of an operation already under way. */
  function Continue(s: Sys, a: Action): (s': Sys)
    requires a.Arm? || a.PostRequest? || a.UndoAsk? || a.SendAnswer? || a.UndoAnswer? || a.PostExpiry? || a.UndoExpiry?
          || a.ClaimMessage? || a.RunCallback? || a.HandlerReturns?
    requires a.t in s.ops && Sized(s)
    ensures Sized(s')
  {
    var op := s.ops[a.t];
    match a
    case Arm(t, ok) =>
      if !op.Arming? then s
      else if ok then SetOp(s.(timers := s.timers + {op.mail.ask}), t, Posting(op.mail))
      else SetOp(s, t, AskUndo(op.mail.ask, op.mail.msg.header.askId))
    case PostRequest(t, ok) =>
      if !op.Posting? || op.mail.ask >= |s.led.asks| then s
      else if ok then
        EndOp(Append(s.(handles := s.handles + {op.mail.ask}), s.led.asks[op.mail.ask].target, op.mail), t)
      else SetOp(s, t, AskUndo(op.mail.ask, op.mail.msg.header.askId))
    case UndoAsk(t) =>
      if !op.AskUndo? then s else EndOp(s.(led := RetireById(s.led, op.askId, AskFailed, op.ask)), t)
    case SendAnswer(t, ok) =>
      if !op.Answering? then s
      else if ok then EndOp(Append(s, op.self, op.mail), t)
      else SetOp(s, t, AnswerUndo(op.mail.ask, op.mail.msg.header.askId))
    case UndoAnswer(t) =>
      if !op.AnswerUndo? then s else EndOp(s.(led := RetireById(s.led, op.askId, ReplyFailed, op.ask)), t)
    case PostExpiry(t, ok) =>
      if !op.Expiring? then s
      else if ok then EndOp(Append(s, op.self, op.mail), t)
      else SetOp(s, t, ExpiryUndo(op.mail.ask, op.mail.msg.header.askId, op.self))
    case UndoExpiry(t) => if op.ExpiryUndo? then DoUndoExpiry(s, t) else s
    case ClaimMessage(t) => if op.Dequeued? then DoClaimMessage(s, t) else s
    case RunCallback(t) =>
      if !op.Calling? then s
      else EndOp(s.(runs := s.runs + [Run(op.ask, op.callback, op.self, op.mail)]), t)
    case HandlerReturns(t) => if op.Handling? then EndOp(s, t) else s
  }

  /** Before the first ask: an empty table of `n` slots, any id counter. */
  function Start(n: nat, next: Uint32): Sys {
    Sys(Ledger(seq(n, _ => ZERO_SLOT), seq(n, _ => 0), next, [], [], []), map[], map[], {}, {}, [])
  }

  /** The system after the actions, in order. */
  function After(s: Sys, actions: seq<Action>): (s': Sys)
    requires Sized(s)
    ensures Sized(s')
    decreases |actions|
  {
    if actions == [] then s else Next(After(s, actions[..|actions| - 1]), actions[|actions| - 1])
  }
}
